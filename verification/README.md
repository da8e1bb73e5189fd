# AtariMidwaySTRM in Dafny

`AtariMidwaySTRM.py` converts an audio file into the raw PCM music asset
that four Atari/Midway arcade games read: 31000 Hz signed 16-bit
little-endian PCM, with 6 channels for San Francisco Rush 2049 (`sf2049`,
`sf2049te`, `sf2049tea`, `sf2049se`), 2 for Gauntlet Dark Legacy
(`gauntdl`) and 1 for California Speed and Road Burners (`calspeed`,
`roadburn`). It has two decisions of its own, with process and file I/O on
both sides of them:

- the **game dispatch**: it turns the game name and the channel probe's raw
  output into the exact argv list given to the transcoder (FFmpeg). For Rush
  2049, when the probe prints `1\n`, `2\n` or `4\n`, that list holds the
  5.1 pan filter for that channel count; any other probe output gives the
  plain `-ac 6` command;
- the **STRM container**: for Rush 2049 only, the transcoder's output gets a
  fixed header carrying the payload length.

The model is a set of pure functions:

- `wrappers.dfy` (`Wrappers`): `Option` and `Result`.
- `bytes.dfy` (`Bytes`): ASCII literals, zero runs, little-endian integers.
  `ToBytesLE` models Python's `int.to_bytes(width, 'little')`, which raises
  `OverflowError` (here `None`) when the value does not fit.
- `pan_map.dfy` (`PanMap`): a pan map as data. A map is a list of
  `PanEntry(output, op, sources)` clauses with `op` either `=` (`Assign`) or
  `<` (`Normalize`). The module also holds the rendering to the filter
  string and a parser that reads it back. It has the three maps the script
  uses, and the rule they follow: output 4 is the `<` mix of all source
  channels, and every other output copies source `output mod n`.
- `dispatch.dfy` (`Dispatch`): the game names, the byte-exact probe match,
  the transcoder `Invocation` with its argv rendering and parser, and
  `TranscodeCommand`, the script's lines 66-87.
- `strm.dfy` (`Strm`): the STRM encoder, a field-by-field reader, and the
  layout and round-trip lemmas.
- `conversion.dfy` (`Conversion`): one run. What the transcoder leaves at
  its destination (its bytes, or no file) is a parameter. The result is
  either the command and what is left at the output path, or the error that
  stops the run. That error wraps the dispatch or STRM error, or says that
  the Rush 2049 path found no temporary file.

The container the code writes is: `STRM`; the payload length L as a
little-endian uint32; byte `0x36` (ASCII `6`); three zero bytes; `0x52`;
then `header_size - 12` = 499 zero bytes; then the payload. The header is
therefore 512 bytes. The variable `header_size` is 0x1FF = 511, and its
comment calls that the header length. The length field holds L itself.

## Notes on the code

- The header is 512 bytes: the 13-byte prefix of lines 94-96 plus
  `header_size - 12` = 499 zeros. The comment on line 17 calls
  `header_size` = 0x1FF = 511 the header length, and says the length field
  holds the file size minus 0x1FF. The field holds the payload length L
  (line 92), which is the file size minus 512. A 1000-byte payload gives a
  1512-byte file (`Strm.ThousandZeroBytes`).
- No pan string on lines 68, 71 or 74 assigns output `c5`.
- Output `c4` is written with `<` on lines 68, 71 and 74, which asks the
  filter to renormalise the gains.
- `to_bytes(4, byteorder='little')` on line 95 raises `OverflowError` when
  L is 2^32 or more. This is modelled as the `LengthOverflow` failure.
- Lines 67, 70 and 73 compare the probe's raw output with `b'1\n'`,
  `b'2\n'` and `b'4\n'`, so `b'2\r\n'` or `b'2'` select no filter.
- When the output path is `temp_unheadered.str` itself, a Rush 2049 run
  leaves no file. Line 93 opens that file for writing while line 91 still
  has it open for reading, which empties it. Line 97 then copies nothing,
  and line 98 deletes the output. The script still exits with status 0
  (`Conversion.TempOutputIsLost`).

## Model

| member | source | states |
|---|---|---|
| Dispatch.GameNamesExact | AtariMidwaySTRM.py:66-87 | a name is accepted exactly when it is one of the seven; the Rush 2049 family is found by exactly `sf2049`, `sf2049te`, `sf2049tea`, `sf2049se` |
| Dispatch.GameNameRoundTrip | AtariMidwaySTRM.py:66-87 | each game is found by its own name |
| Dispatch.GameOf | AtariMidwaySTRM.py:66-87 | a game found for a name carries that name |
| Dispatch.ProbedChannels | AtariMidwaySTRM.py:67-76 | a channel count is selected exactly when the probe bytes are `1\n`, `2\n` or `4\n`, and the count is the digit in those bytes |
| Dispatch.ProbeReplies | AtariMidwaySTRM.py:67-78 | the three replies are the ASCII texts `1\n`, `2\n`, `4\n`; empty output, `2`, `6\n` and `2\r\n` select nothing |
| Dispatch.TranscodeCommand | AtariMidwaySTRM.py:66-87 | the run fails with `UnknownGame(name)` exactly for names outside the seven, and then no argv is built; otherwise the argv has 13 words, or 15 with a filter |
| Dispatch.ParseArgv | AtariMidwaySTRM.py:68-84 | any argv list the reader accepts is the rendering of the invocation it reads |
| Dispatch.ParseArgvRender | AtariMidwaySTRM.py:68-84 | every invocation is read back from its argv list, so program, input, filter, channel count and destination can be recovered from the argv |
| Dispatch.CommonFlags | AtariMidwaySTRM.py:68-84 | every argv starts with the transcoder path, `-i` and the input, and ends `-ar 31000 -ac <n> -f s16le -acodec pcm_s16le -y <dest>` |
| Dispatch.ChannelFlagByName | AtariMidwaySTRM.py:66-84 | `-ac 6` for the four Rush 2049 names, `-ac 2` for `gauntdl`, `-ac 1` for `calspeed` and `roadburn` |
| Dispatch.DestinationByName | AtariMidwaySTRM.py:68-84 | the destination is `temp_unheadered.str` for Rush 2049 and the user's output path for the other games |
| Dispatch.FilterExactly | AtariMidwaySTRM.py:66-78 | `-filter_complex` is word 3 exactly when the name is a Rush 2049 name and the probe bytes are `1\n`, `2\n` or `4\n`; its argument parses back to the pan map for that count and begins `[0:a]pan=5.1`; otherwise word 3 is `-ar` and the argv has 13 words |
| Dispatch.FilterLiterals | AtariMidwaySTRM.py:67-75 | for a Rush 2049 name the probe bytes `1\n`, `2\n`, `4\n` put the mono, stereo and quadraphonic filter strings in the argv |
| PanMap.Parse | AtariMidwaySTRM.py:68-74 | any filter string the parser accepts is the rendering of the valid map it returns |
| PanMap.ParseRender | AtariMidwaySTRM.py:68-74 | every valid pan map is read back from its rendering |
| PanMap.RenderInjective | AtariMidwaySTRM.py:68-74 | two valid maps with the same filter string are the same map |
| PanMap.MapFor | AtariMidwaySTRM.py:67-76 | a pan map exists exactly for 1, 2 and 4 source channels |
| PanMap.MapFollowsRule | AtariMidwaySTRM.py:68-74 | each of the three maps defines outputs 0, 1, 4, 2, 3 in that order; output 4 is the `<` mix of sources 0..n-1; each other output is `=` source `output mod n` |
| PanMap.MapShape | AtariMidwaySTRM.py:68-74 | every map defines outputs 0, 1, 4, 2, 3 in that order and never c5; every source index is below the probed count; c4 uses `<` over all sources; the rest copy one source with `=` (stereo: c2=c0, c3=c1; quad: c2=c2, c3=c3) |
| PanMap.MonoReadsOnlyFirst | AtariMidwaySTRM.py:68 | with a mono source every defined output reads only c0 |
| PanMap.RenderedLiterals | AtariMidwaySTRM.py:68-74 | the three maps render to the script's literal pan strings |
| Strm.Encode | AtariMidwaySTRM.py:94-97 | the writer fails with `LengthOverflow` exactly when L is 2^32 or more; otherwise the file is well formed and its payload is the input |
| Strm.TrailerFieldsExactly | AtariMidwaySTRM.py:96 | header bytes 8 onward are fixed: `0x36`, three zeros, `0x52`, then zeros |
| Strm.HeaderIs512Bytes | AtariMidwaySTRM.py:94-96 | the header is 512 bytes, one more than `header_size`, so the file is 512 + L bytes |
| Strm.MagicIsAscii | AtariMidwaySTRM.py:94 | the magic is the ASCII text `STRM` |
| Strm.MagicBytes | AtariMidwaySTRM.py:94 | bytes 0..3 of the file are the ASCII text `STRM` |
| Strm.LengthBytes | AtariMidwaySTRM.py:95 | bytes 4..7 of the file are L as a little-endian uint32: b4 + 2^8 b5 + 2^16 b6 + 2^24 b7 = L |
| Strm.ChannelAndReserved | AtariMidwaySTRM.py:96 | byte 8 is `0x36`, bytes 9..11 are zero, byte 12 is `0x52` |
| Strm.PaddingAndPayload | AtariMidwaySTRM.py:96-97 | bytes 13..511 are zero and the file from offset 512 is the payload unchanged |
| Strm.DecodeEncode | AtariMidwaySTRM.py:94-97 | reading a written file gives back its payload |
| Strm.EncodeDecode | AtariMidwaySTRM.py:94-97 | every file the reader accepts is exactly the file written for the payload it yields |
| Strm.HeaderDependsOnlyOnLength | AtariMidwaySTRM.py:92-96 | two payloads of the same length get the same 512 header bytes |
| Strm.ThousandZeroBytes | AtariMidwaySTRM.py:92-97 | 1000 zero bytes give a 1512-byte file whose length field reads 1000 |
| Bytes.ToBytesLE | AtariMidwaySTRM.py:95 | `to_bytes` fails exactly when the value needs more than `width` bytes; otherwise it gives `width` bytes that decode to the value |
| Bytes.EncodeLE | AtariMidwaySTRM.py:95 | the little-endian encoding has the requested width and decodes back to the value |
| Bytes.DecodeLE | AtariMidwaySTRM.py:95 | an n-byte little-endian field holds a value below 256^n |
| Bytes.EncodeDecodeLE | AtariMidwaySTRM.py:95 | every byte string is the encoding of its own value, so the field is a bijection |
| Bytes.DecodeLEInjective | AtariMidwaySTRM.py:95 | two fields of one width with the same value are equal |
| Bytes.DecodeLE32 | AtariMidwaySTRM.py:95 | a 4-byte field reads as b0 + 2^8 b1 + 2^16 b2 + 2^24 b3 |
| Bytes.Pow256Four | AtariMidwaySTRM.py:95 | a 4-byte field holds values below 2^32 |
| Conversion.Convert | AtariMidwaySTRM.py:66-98 | a run fails exactly for an unknown name, or for a Rush 2049 run whose transcoder left no file or a payload of 2^32 bytes or more, and the error says which; a successful run runs the dispatched command; it leaves no file at the output path exactly when a Rush 2049 run's output path is `temp_unheadered.str`, or when another game's transcoder wrote nothing |
| Conversion.HeaderOnlyForRush2049 | AtariMidwaySTRM.py:79-98 | for a Rush 2049 name whose output path is not the temporary file, the output reads back as a STRM file holding exactly the transcoded bytes and is 512 bytes longer; with the temporary file as output path nothing is left; for every other game the output is what the transcoder left, untouched |
| Conversion.TempOutputIsLost | AtariMidwaySTRM.py:90-98 | a Rush 2049 run whose output path is `temp_unheadered.str` and whose payload fits the length field finishes without error and leaves no output file |
| Conversion.MissingTranscoderOutput | AtariMidwaySTRM.py:89-98 | when the transcoder leaves no file, a Rush 2049 run stops because line 91 cannot open the temporary file; any other known game finishes without error, since line 89 ignores the transcoder's exit status, and leaves no file |
| Conversion.UnknownNameFails | AtariMidwaySTRM.py:85-87 | an unknown name fails with that name, whatever the probe or payload |

## Left out

- Argument parsing (lines 9-15) and the banner (lines 19-23) are command-line plumbing. The name, paths and probe output are parameters.
- Finding and checking the FFmpeg and FFprobe executables (lines 25-57) and the input-existence check (lines 59-61) are process and filesystem effects. The transcoder path is a parameter.
- Building and running the probe command (lines 63-65) is not modelled. Its stdout is an opaque byte-sequence parameter.
- Running the transcoder (line 89) is not modelled, and neither is the resampling and mixing it does. That includes what `<` does to sample values. What it leaves at its destination, bytes or no file, is a parameter of `Conversion.Convert`. Line 89 ignores its exit status, so a failed transcode is only seen through that parameter.
- File reads and writes, `os.stat`, removing the temporary file (lines 91-98) and the exit codes are I/O. `os.stat` and `read()` are taken to agree on the payload length.
- Strm.Encode: on overflow the script has already written the four bytes `STRM` to the output file before `to_bytes` raises. The model reports `LengthOverflow` and does not model that partial file.
- Conversion.Convert: the output path counts as the temporary file only when it is spelled exactly `temp_unheadered.str`. Other names for the same file, such as `./temp_unheadered.str` or an absolute path into the working directory, lose the output in the same way, but the model has no file system to resolve them.
- Conversion.Convert: assumes that no file from an earlier run sits at the transcoder's destination. If one did and the transcoder wrote nothing, the script would wrap the stale temporary file (Rush 2049) or leave the stale output in place (other games). The model reads "no file written" as no file.
- Conversion.HeaderOnlyForRush2049: promises the STRM file only for output paths not spelled `temp_unheadered.str`. An output path that names that file in another spelling also ends with no file, which the model does not detect (see `Conversion.Convert`).
- PanMap.Parse: channel references are single digits, enough for every map the script writes (outputs 0-4, sources 0-3). The filter's own syntax allows more channels, which the model does not cover.
