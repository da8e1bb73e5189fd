/** One run of the script after its checks: dispatch on the game, run the
    transcoder, and write the final file, wrapping it in a STRM header for
    Rush 2049. What the transcoder leaves at its destination is a parameter. */
module Conversion {
  import opened Wrappers
  import opened Bytes
  import Dispatch
  import Strm

  datatype ConversionError =
    /** The game name is not one of the seven; the transcoder is not run
        and nothing is written. */
    | DispatchFailed(dispatchError: Dispatch.DispatchError)
    /** Rush 2049 only: the transcoder left no temporary file, so opening
        it for reading raises. */
    | NoTranscoderOutput
    /** Rush 2049 only: the STRM header cannot be written. */
    | EncodeFailed(strmError: Strm.StrmError)

  /** What a successful run does: the command it runs, and what it leaves at
      the user's output path (`None` when the run ends with no file there). */
  datatype Run = Run(command: seq<string>, file: Option<seq<byte>>)

  /** What is left at the output path for a known game, given what the
      transcoder left at its destination (`None`: no file). Other games get
      the transcoder's result untouched, a missing file included. Rush 2049
      needs the temporary file and gets the STRM container around it, unless
      the output path is the temporary file itself: opening it for writing
      empties the file still open for reading, so the copy reads nothing,
      and the closing removal of the temporary file then deletes the output. */
  function FinalFile(g: Dispatch.Game, transcoded: Option<seq<byte>>, output: string)
    : Result<Option<seq<byte>>, ConversionError>
  {
    if Dispatch.IsRush2049(g) then
      match transcoded
      case None => Failure(NoTranscoderOutput)
      case Some(t) =>
        match Strm.Encode(t)
        case Success(f) => if output == Dispatch.TempFile then Success(None) else Success(Some(f))
        case Failure(e) => Failure(EncodeFailed(e))
    else Success(transcoded)
  }

  /** A whole run: `transcoded` stands for what the transcoder leaves at its
      destination when given the command, and `probe` for what the channel
      probe printed. */
  function Convert(name: string, probe: seq<byte>, paths: Dispatch.Paths, transcoded: Option<seq<byte>>)
    : (r: Result<Run, ConversionError>)
    ensures r.Failure? <==>
              || name !in Dispatch.KnownNames
              || (name in Dispatch.Rush2049Names
                  && (transcoded.None? || |transcoded.value| >= 0x1_0000_0000))
    ensures r.Failure? && name !in Dispatch.KnownNames ==>
              r.error == DispatchFailed(Dispatch.UnknownGame(name))
    ensures r.Failure? && name in Dispatch.KnownNames ==>
              r.error == if transcoded.None? then NoTranscoderOutput
                         else EncodeFailed(Strm.LengthOverflow(|transcoded.value|))
    ensures r.Success? ==> Dispatch.TranscodeCommand(name, probe, paths) == Success(r.value.command)
    ensures r.Success? ==> (r.value.file.None? <==>
                              || (name in Dispatch.Rush2049Names && paths.output == Dispatch.TempFile)
                              || (name !in Dispatch.Rush2049Names && transcoded.None?))
  {
    Dispatch.GameNamesExact(name);
    match Dispatch.TranscodeCommand(name, probe, paths)
    case Failure(e) => Failure(DispatchFailed(e))
    case Success(argv) =>
      var g := Dispatch.GameOf(name).value;
      match FinalFile(g, transcoded, paths.output)
      case Failure(e) => Failure(e)
      case Success(f) => Success(Run(argv, f))
  }

  /** Only the Rush 2049 family gets a header: its file reads back as a STRM
      container holding exactly the transcoded bytes, 512 bytes longer; for
      every other game the output is what the transcoder left, untouched. A
      Rush 2049 run whose output path is the temporary file leaves no file. */
  lemma HeaderOnlyForRush2049(name: string, probe: seq<byte>, paths: Dispatch.Paths, transcoded: Option<seq<byte>>)
    requires Convert(name, probe, paths, transcoded).Success?
    ensures var file := Convert(name, probe, paths, transcoded).value.file;
      && (name in Dispatch.Rush2049Names && paths.output != Dispatch.TempFile ==>
            transcoded.Some? && file.Some? && Strm.Decode(file.value) == transcoded
            && |file.value| == 512 + |transcoded.value|)
      && (name in Dispatch.Rush2049Names && paths.output == Dispatch.TempFile ==> file.None?)
      && (name !in Dispatch.Rush2049Names ==> file == transcoded)
  {
    Dispatch.GameNamesExact(name);
    if name in Dispatch.Rush2049Names {
      Strm.DecodeEncode(transcoded.value);
      Strm.HeaderIs512Bytes(transcoded.value);
    }
  }

  /** A Rush 2049 run told to write to the temporary file's own name
      finishes without error and leaves nothing at the output path. */
  lemma TempOutputIsLost(name: string, probe: seq<byte>, paths: Dispatch.Paths, transcoded: seq<byte>)
    requires name in Dispatch.Rush2049Names && paths.output == Dispatch.TempFile
    requires |transcoded| < 0x1_0000_0000
    ensures Convert(name, probe, paths, Some(transcoded)).Success?
    ensures Convert(name, probe, paths, Some(transcoded)).value.file == None
  {
  }

  /** When the transcoder leaves no file, a Rush 2049 run stops with an
      error, while any other known game finishes without error and leaves
      nothing at the output path. */
  lemma MissingTranscoderOutput(name: string, probe: seq<byte>, paths: Dispatch.Paths)
    requires name in Dispatch.KnownNames
    ensures name in Dispatch.Rush2049Names ==>
              Convert(name, probe, paths, None) == Failure(NoTranscoderOutput)
    ensures name !in Dispatch.Rush2049Names ==>
              Convert(name, probe, paths, None).Success?
              && Convert(name, probe, paths, None).value.file == None
  {
  }

  /** An unknown name fails with that name, whatever the probe or payload. */
  lemma UnknownNameFails(name: string, probe: seq<byte>, paths: Dispatch.Paths, transcoded: Option<seq<byte>>)
    requires name !in Dispatch.KnownNames
    ensures Convert(name, probe, paths, transcoded) == Failure(DispatchFailed(Dispatch.UnknownGame(name)))
  {
  }
}
