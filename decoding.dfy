/**
 * The byte/text conversions of `run_cmd`: encoding text input before it is
 * fed to the command, and the nested `decode` applied to captured output.
 */
module Decoding {
  import opened Common
  import opened LineEndings

  /**
   * The collaborators this code calls but does not define: the codec's
   * `bytes.decode(encoding, errors='replace')`, `str.encode(encoding)` and
   * `io.strip_shell_colors`. They are left uninterpreted.
   */
  datatype Codecs = Codecs(
    decode: (string, seq<byte>) -> string,
    encode: (string, string) -> seq<byte>,
    stripShellColors: string -> string)

  /** The `input` argument: raw bytes or text. */
  datatype Input = Bytes(bytes: seq<byte>) | Text(text: string)

  /** The `output` item of the result: raw bytes or decoded text. */
  datatype Output = RawOutput(bytes: seq<byte>) | TextOutput(text: string)

  /** Input that is not already bytes is encoded with `inputEncoding`. */
  function EncodeInput(input: Input, inputEncoding: string, codecs: Codecs): (b: seq<byte>)
    ensures input.Bytes? ==> b == input.bytes
    ensures input.Text? ==> b == codecs.encode(inputEncoding, input.text)
  {
    match input
    case Bytes(bytes) => bytes
    case Text(text) => codecs.encode(inputEncoding, text)
  }

  /**
   * The nested `decode` of `run_cmd`. Without an output encoding the bytes
   * come back untouched; with one they are decoded, every line ending becomes
   * `\n`, and shell colours are stripped afterwards when asked for.
   */
  function Decode(output: seq<byte>, outputEncoding: Option<string>, stripShellColors: bool,
                  codecs: Codecs): (r: Output)
    ensures r.RawOutput? <==> outputEncoding.None?
    ensures outputEncoding.None? ==> r.bytes == output
    ensures outputEncoding.Some? && !stripShellColors ==>
              var text := codecs.decode(outputEncoding.value, output);
              && r.text == Normalize(text)
              && CR !in r.text && |r.text| == |text| - CountCRLF(text) && Plain(r.text) == Plain(text)
              && Count(r.text, LF) == Count(text, LF) + Count(text, CR) - CountCRLF(text)
    ensures outputEncoding.Some? && stripShellColors ==>
              r.text == codecs.stripShellColors(Normalize(codecs.decode(outputEncoding.value, output)))
  {
    match outputEncoding
    case None => RawOutput(output)
    case Some(encoding) =>
      var text := codecs.decode(encoding, output);
      var normalized := Normalize(text);
      NormalizeLength(text);
      NormalizeKeepsText(text);
      NormalizeCountsBreaks(text);
      if stripShellColors then TextOutput(codecs.stripShellColors(normalized))
      else TextOutput(normalized)
  }
}
