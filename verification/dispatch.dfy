/** Which game was asked for, and the exact transcoder command line the
    script builds for it from the probed channel count. */
module Dispatch {
  import opened Wrappers
  import opened Bytes
  import PanMap

  /** The games the script knows, one per accepted `--game` value. */
  datatype Game = Sf2049 | Sf2049Te | Sf2049Tea | Sf2049Se | GauntDl | CalSpeed | RoadBurn

  function GameName(g: Game): string {
    match g
    case Sf2049 => "sf2049"
    case Sf2049Te => "sf2049te"
    case Sf2049Tea => "sf2049tea"
    case Sf2049Se => "sf2049se"
    case GauntDl => "gauntdl"
    case CalSpeed => "calspeed"
    case RoadBurn => "roadburn"
  }

  /** The four names of the Rush 2049 family. */
  const Rush2049Names: seq<string> := ["sf2049", "sf2049te", "sf2049tea", "sf2049se"]

  /** Every name the script accepts. */
  const KnownNames: seq<string> := Rush2049Names + ["gauntdl", "calspeed", "roadburn"]

  /** The script's `if args.game == ... elif ...` chain; `None` is the
      "Unknown game name." exit. */
  function GameOf(name: string): (r: Option<Game>)
    ensures r.Some? ==> GameName(r.value) == name
  {
    if name == "sf2049" then Some(Sf2049)
    else if name == "sf2049te" then Some(Sf2049Te)
    else if name == "sf2049tea" then Some(Sf2049Tea)
    else if name == "sf2049se" then Some(Sf2049Se)
    else if name == "gauntdl" then Some(GauntDl)
    else if name == "calspeed" then Some(CalSpeed)
    else if name == "roadburn" then Some(RoadBurn)
    else None
  }

  /** Rush 2049 and its three revisions share the 6-channel STRM path. */
  predicate IsRush2049(g: Game) {
    g.Sf2049? || g.Sf2049Te? || g.Sf2049Tea? || g.Sf2049Se?
  }

  /** A name is accepted exactly when it is one of the seven, and the
      Rush 2049 family is found by exactly its four names. */
  lemma GameNamesExact(name: string)
    ensures GameOf(name).Some? <==> name in KnownNames
    ensures GameOf(name).Some? && IsRush2049(GameOf(name).value) <==> name in Rush2049Names
  {
  }

  /** Each game is found by its own name. */
  lemma GameNameRoundTrip(g: Game)
    ensures GameOf(GameName(g)) == Some(g)
  {
  }

  // ---------------------------------------------------------------------
  // The channel probe
  // ---------------------------------------------------------------------

  /** The probe's stdout for a stream of 1, 2 or 4 channels: `b'1\n'`,
      `b'2\n'`, `b'4\n'`. */
  const ProbeMono: seq<byte> := [0x31, 0x0A]
  const ProbeStereo: seq<byte> := [0x32, 0x0A]
  const ProbeQuad: seq<byte> := [0x34, 0x0A]

  /** The channel count the script reacts to. The probe's output is matched
      byte for byte, so anything other than the three replies above (no
      output, no newline, CRLF, other counts) selects no pan map. */
  function ProbedChannels(probe: seq<byte>): (r: Option<nat>)
    ensures r.Some? <==> probe in [ProbeMono, ProbeStereo, ProbeQuad]
    ensures r.Some? ==> (r.value == 1 || r.value == 2 || r.value == 4)
                        && probe == [(0x30 + r.value) as byte, 0x0A]
  {
    if probe == ProbeMono then Some(1)
    else if probe == ProbeStereo then Some(2)
    else if probe == ProbeQuad then Some(4)
    else None
  }

  /** The replies are the ASCII texts `1\n`, `2\n` and `4\n`, and the
      near misses select nothing. */
  lemma ProbeReplies()
    ensures ProbeMono == Ascii("1\n") && ProbeStereo == Ascii("2\n") && ProbeQuad == Ascii("4\n")
    ensures ProbedChannels(Ascii("")) == None
    ensures ProbedChannels(Ascii("2")) == None
    ensures ProbedChannels(Ascii("6\n")) == None
    ensures ProbedChannels(Ascii("2\r\n")) == None
  {
    assert Ascii("2") == [0x32];
    assert Ascii("6\n") == [0x36, 0x0A];
    assert Ascii("2\r\n") == [0x32, 0x0D, 0x0A];
  }

  // ---------------------------------------------------------------------
  // The transcoder command line
  // ---------------------------------------------------------------------

  /** Paths given on the command line, and the transcoder location found. */
  datatype Paths = Paths(ffmpeg: string, input: string, output: string)

  /** Where the Rush 2049 path has the transcoder write the bare PCM. */
  const TempFile: string := "temp_unheadered.str"

  /** The transcoder invocation as its options read: program, input, an
      optional filter graph, the `-ac` channel count and the destination.
      Sample rate 31000, format s16le, codec pcm_s16le and `-y` are fixed. */
  datatype Invocation = Invocation(
    program: string, input: string, filter: Option<string>, channels: string, destination: string)

  /** The argv list for an invocation, laid out as the script lays it out. */
  function Argv(inv: Invocation): seq<string> {
    [inv.program, "-i", inv.input]
    + (if inv.filter.Some? then ["-filter_complex", inv.filter.value] else [])
    + ["-ar", "31000", "-ac", inv.channels, "-f", "s16le", "-acodec", "pcm_s16le", "-y", inv.destination]
  }

  /** Reads an argv list of that layout back into its invocation. */
  function ParseArgv(a: seq<string>): (r: Option<Invocation>)
    ensures r.Some? ==> Argv(r.value) == a
  {
    var hasFilter := |a| == 15 && a[3] == "-filter_complex";
    var k := if hasFilter then 5 else 3;
    if (|a| == 13 || hasFilter) && a[1] == "-i"
       && a[k..k + 7] == ["-ar", "31000", "-ac", a[k + 3], "-f", "s16le", "-acodec"]
       && a[k + 7..k + 10] == ["pcm_s16le", "-y", a[k + 9]]
    then
      var inv := Invocation(a[0], a[2], if hasFilter then Some(a[4]) else None, a[k + 3], a[k + 9]);
      assert a == a[..k] + a[k..k + 7] + a[k + 7..k + 10];
      assert a[..k] == [a[0], "-i", a[2]] + (if hasFilter then ["-filter_complex", a[4]] else []);
      Some(inv)
    else None
  }

  /** Every invocation is read back from its argv list, so the argv list
      determines the program, input, filter, channel count and destination. */
  lemma ParseArgvRender(inv: Invocation)
    ensures ParseArgv(Argv(inv)) == Some(inv)
  {
    var a := Argv(inv);
    var head := [inv.program, "-i", inv.input]
                + (if inv.filter.Some? then ["-filter_complex", inv.filter.value] else []);
    var tail := ["-ar", "31000", "-ac", inv.channels, "-f", "s16le", "-acodec", "pcm_s16le", "-y", inv.destination];
    var k := |head|;
    assert a == head + tail;
    assert a[k..k + 7] == tail[..7];
    assert a[k + 7..k + 10] == tail[7..];
  }

  /** The `-ac` value: 6 for Rush 2049, 2 for Gauntlet Dark Legacy, 1 for
      California Speed and Road Burners. */
  function ChannelFlag(g: Game): string {
    if IsRush2049(g) then "6"
    else if g == GauntDl then "2"
    else "1"
  }

  /** The transcoder's `-filter_complex` argument, if any: only the Rush
      2049 family with a 1-, 2- or 4-channel probe reply gets one. */
  function FilterFor(g: Game, probe: seq<byte>): Option<string> {
    if IsRush2049(g) then
      match ProbedChannels(probe)
      case Some(n) => Some(PanMap.Render(PanMap.MapFor(n).value))
      case None => None
    else None
  }

  /** The invocation for a known game. */
  function InvocationFor(g: Game, probe: seq<byte>, paths: Paths): Invocation {
    Invocation(paths.ffmpeg, paths.input, FilterFor(g, probe), ChannelFlag(g),
               if IsRush2049(g) then TempFile else paths.output)
  }

  datatype DispatchError = UnknownGame(name: string)

  /** The argv list the script hands to the transcoder, or the unknown-game
      failure, in which case no command is built. */
  function TranscodeCommand(name: string, probe: seq<byte>, paths: Paths): (r: Result<seq<string>, DispatchError>)
    ensures r.Failure? <==> name !in KnownNames
    ensures r.Failure? ==> r.error == UnknownGame(name)
    ensures r.Success? ==> |r.value| == 13 || |r.value| == 15
  {
    GameNamesExact(name);
    match GameOf(name)
    case None => Failure(UnknownGame(name))
    case Some(g) => Success(Argv(InvocationFor(g, probe, paths)))
  }

  /** Every command starts with the transcoder, `-i` and the input, and ends
      with rate 31000, the channel flag, format s16le, codec pcm_s16le, `-y`
      and the destination. */
  lemma CommonFlags(name: string, probe: seq<byte>, paths: Paths)
    requires TranscodeCommand(name, probe, paths).Success?
    ensures var a := TranscodeCommand(name, probe, paths).value;
      && a[0] == paths.ffmpeg && a[1] == "-i" && a[2] == paths.input
      && a[|a| - 10] == "-ar" && a[|a| - 9] == "31000"
      && a[|a| - 8] == "-ac"
      && a[|a| - 6] == "-f" && a[|a| - 5] == "s16le"
      && a[|a| - 4] == "-acodec" && a[|a| - 3] == "pcm_s16le"
      && a[|a| - 2] == "-y"
  {
  }

  /** The channel flag by game name: `-ac 6` for the four Rush 2049 names,
      `-ac 2` for gauntdl, `-ac 1` for calspeed and roadburn. */
  lemma ChannelFlagByName(name: string, probe: seq<byte>, paths: Paths)
    requires name in KnownNames
    ensures var a := TranscodeCommand(name, probe, paths).value;
      && (name in Rush2049Names ==> a[|a| - 7] == "6")
      && (name == "gauntdl" ==> a[|a| - 7] == "2")
      && (name == "calspeed" || name == "roadburn" ==> a[|a| - 7] == "1")
  {
    GameNamesExact(name);
  }

  /** The transcoder writes to the temporary file for Rush 2049 and straight
      to the user's output path for every other game. */
  lemma DestinationByName(name: string, probe: seq<byte>, paths: Paths)
    requires name in KnownNames
    ensures var a := TranscodeCommand(name, probe, paths).value;
      a[|a| - 1] == if name in Rush2049Names then TempFile else paths.output
  {
    GameNamesExact(name);
  }

  /** A filter is passed exactly for a Rush 2049 name with a probe reply of
      `1\n`, `2\n` or `4\n`; it is the pan map for that channel count, and
      it begins `[0:a]pan=5.1`. Otherwise the command is the plain 13-word
      `-ac` form. */
  lemma FilterExactly(name: string, probe: seq<byte>, paths: Paths)
    requires name in KnownNames
    ensures var a := TranscodeCommand(name, probe, paths).value;
      && (a[3] == "-filter_complex" <==>
            name in Rush2049Names && probe in [ProbeMono, ProbeStereo, ProbeQuad])
      && (a[3] == "-filter_complex" ==>
            |a| == 15 && PanMap.Parse(a[4]) == PanMap.MapFor(ProbedChannels(probe).value)
            && a[4][..|PanMap.Prefix|] == "[0:a]pan=5.1")
      && (a[3] != "-filter_complex" ==> |a| == 13 && a[3] == "-ar")
  {
    var g := KnownGame(name, probe, paths);
    GameFilter(g, probe, paths);
  }

  /** The game a known name selects, with the facts that connect the two. */
  lemma KnownGame(name: string, probe: seq<byte>, paths: Paths) returns (g: Game)
    requires name in KnownNames
    ensures GameOf(name) == Some(g)
    ensures IsRush2049(g) <==> name in Rush2049Names
    ensures TranscodeCommand(name, probe, paths) == Success(Argv(InvocationFor(g, probe, paths)))
  {
    GameNamesExact(name);
    g := GameOf(name).value;
  }

  /** The filter part of the command for a known game. */
  lemma GameFilter(g: Game, probe: seq<byte>, paths: Paths)
    ensures var a := Argv(InvocationFor(g, probe, paths));
      && (a[3] == "-filter_complex" <==> IsRush2049(g) && ProbedChannels(probe).Some?)
      && (a[3] == "-filter_complex" ==>
            |a| == 15 && PanMap.Parse(a[4]) == PanMap.MapFor(ProbedChannels(probe).value)
            && a[4][..|PanMap.Prefix|] == "[0:a]pan=5.1")
      && (a[3] != "-filter_complex" ==> |a| == 13 && a[3] == "-ar")
  {
    var a := Argv(InvocationFor(g, probe, paths));
    if FilterFor(g, probe).Some? {
      var m := PanMap.MapFor(ProbedChannels(probe).value).value;
      assert a[3] == "-filter_complex" && a[4] == PanMap.Render(m);
      PanMap.MapsValid();
      PanMap.ParseRender(m);
      assert PanMap.Render(m)[..|PanMap.Prefix|] == PanMap.Prefix;
    } else {
      assert a[3] == "-ar";
    }
  }

  /** The literal filter strings: with a Rush 2049 name the probe reply
      selects the script's mono, stereo or quadraphonic pan string. */
  lemma FilterLiterals(name: string, probe: seq<byte>, paths: Paths)
    requires name in Rush2049Names
    ensures var a := TranscodeCommand(name, probe, paths).value;
      && (probe == ProbeMono ==> a[4] == "[0:a]pan=5.1" + "|c0=c0" + "|c1=c0" + "|c4<c0" + "|c2=c0" + "|c3=c0")
      && (probe == ProbeStereo ==> a[4] == "[0:a]pan=5.1" + "|c0=c0" + "|c1=c1" + "|c4<c0+c1" + "|c2=c0" + "|c3=c1")
      && (probe == ProbeQuad ==> a[4] == "[0:a]pan=5.1" + "|c0=c0" + "|c1=c1" + "|c4<c0+c1+c2+c3" + "|c2=c2" + "|c3=c3")
  {
    var a := TranscodeCommand(name, probe, paths).value;
    if probe == ProbeMono {
      var m := RushFilter(name, probe, paths, 1);
      PanMap.RenderedMono(m);
    } else if probe == ProbeStereo {
      var m := RushFilter(name, probe, paths, 2);
      PanMap.RenderedStereo(m);
    } else if probe == ProbeQuad {
      var m := RushFilter(name, probe, paths, 4);
      PanMap.RenderedQuad(m);
    }
  }

  /** For a Rush 2049 name and a probe reply naming `n` channels, word 4 of
      the command is the rendering of the map for `n`. */
  lemma RushFilter(name: string, probe: seq<byte>, paths: Paths, n: nat) returns (m: seq<PanMap.PanEntry>)
    requires name in Rush2049Names
    requires ProbedChannels(probe) == Some(n)
    ensures PanMap.MapFor(n) == Some(m)
    ensures |TranscodeCommand(name, probe, paths).value| > 4
    ensures TranscodeCommand(name, probe, paths).value[4] == PanMap.Render(m)
  {
    var g := KnownGame(name, probe, paths);
    m := PanMap.MapFor(n).value;
    assert InvocationFor(g, probe, paths).filter == Some(PanMap.Render(m));
  }
}
