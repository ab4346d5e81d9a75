/** Lines and markers in what a worker prints. */
module OutputText {
  import opened Records

  function Ascii(text: string): Bytes {
    seq(|text|, i requires 0 <= i < |text| => (text[i] as int % 128) as byte)
  }

  const SUBMIT: Bytes := Ascii("COMPLETE_TASK_AND_SUBMIT_FINAL_OUTPUT")
  const REQUEST: Bytes := Ascii("WARRANTED_REQUEST")

  const NEWLINE: byte := 10
  const RETURN: byte := 13

  /** Where the first line ends, its terminator included. */
  function LineEnd(bytes: Bytes): (end: nat)
    requires bytes != []
    ensures 0 < end <= |bytes|
  {
    if bytes[0] == NEWLINE then 1
    else if bytes[0] == RETURN then if |bytes| > 1 && bytes[1] == NEWLINE then 2 else 1
    else if |bytes| == 1 then 1
    else 1 + LineEnd(bytes[1..])
  }

  function Lines(bytes: Bytes): seq<Bytes> {
    if bytes == [] then [] else [bytes[..LineEnd(bytes)]] + Lines(bytes[LineEnd(bytes)..])
  }

  predicate Space(b: byte) {
    b == 32 || 9 <= b <= 13
  }

  function Strip(bytes: Bytes): Bytes {
    if bytes == [] then []
    else if Space(bytes[0]) then Strip(bytes[1..])
    else if Space(bytes[|bytes| - 1]) then Strip(bytes[..|bytes| - 1])
    else bytes
  }

  /** The text of a JSON value holds no line that is a marker. */
  function MarkedLines(stdout: Blob): seq<Bytes> {
    if stdout.Raw? then Lines(stdout.bytes) else []
  }

  function Markers(lines: seq<Bytes>): set<Bytes> {
    (set line | line in lines :: Strip(line)) * {SUBMIT, REQUEST}
  }
}
