/**
  The two kinds of log line the public handler writes: an error line
  `path::code::err` for the error sink and `path rendered in secs seconds`
  for the load-time sink, each with a parser that reads it back.
 */
module LogLine {
  import opened Wrappers
  import Decimal

  const FieldSeparator := "::"
  const RenderedInfix := " rendered in "
  const SecondsSuffix := " seconds"

  /** The error-sink line for a failed request: path, decimal status code, error text. */
  function ErrorLine(path: string, code: int, err: string): string {
    path + FieldSeparator + Decimal.IntToString(code) + FieldSeparator + err
  }

  /** The load-time-sink line for a served request; `secs` is the formatted elapsed time. */
  function LoadTimeLine(path: string, secs: string): string {
    path + RenderedInfix + secs + SecondsSuffix
  }

  /** Length of the longest prefix of `s` free of ':'. */
  function FieldLength(s: string): (k: nat)
    ensures k <= |s|
    ensures forall i :: 0 <= i < k ==> s[i] != ':'
    ensures k < |s| ==> s[k] == ':'
    decreases |s|
  {
    if |s| == 0 || s[0] == ':' then 0 else 1 + FieldLength(s[1..])
  }

  /**
    Reads an error line written for `path` back into its code and error text.
    The path is given because a path may itself contain "::"; the code field
    never does, so the error text is everything after the second separator.
   */
  function ParseErrorLine(path: string, line: string): Option<(int, string)> {
    var head := path + FieldSeparator;
    if |line| < |head| || line[..|head|] != head then None
    else
      var rest := line[|head|..];
      var k := FieldLength(rest);
      if k + 2 <= |rest| && rest[k..k + 2] == FieldSeparator then
        match Decimal.StringToInt(rest[..k])
        case Some(code) => Some((code, rest[k + 2..]))
        case None => None
      else None
  }

  /** Reads a load-time line written for `path` back into its elapsed-time text. */
  function ParseLoadTimeLine(path: string, line: string): Option<string> {
    var head := path + RenderedInfix;
    if |line| < |head| + |SecondsSuffix| || line[..|head|] != head || line[|line| - |SecondsSuffix|..] != SecondsSuffix then None
    else Some(line[|head|..|line| - |SecondsSuffix|])
  }

  /** An error line is read back as the code and text it was written from. */
  lemma ErrorLineParses(path: string, code: int, err: string)
    ensures ParseErrorLine(path, ErrorLine(path, code, err)) == Some((code, err))
  {
    var head := path + FieldSeparator;
    var line := ErrorLine(path, code, err);
    var text := Decimal.IntToString(code);
    assert line == head + (text + FieldSeparator + err);
    var rest := line[|head|..];
    assert rest == text + FieldSeparator + err;
    var k := FieldLength(rest);
    assert rest[|text|] == ':';
    assert forall i :: 0 <= i < |text| ==> rest[i] == text[i] && text[i] != ':';
    assert k == |text|;
    assert rest[..k] == text;
    assert rest[k + 2..] == err;
    Decimal.StringToIntInverse(text, code);
  }

  /** Whatever parses as an error line for `path` is the line written from the parsed code and text. */
  lemma ParsedErrorLineIsWritten(path: string, line: string, code: int, err: string)
    requires ParseErrorLine(path, line) == Some((code, err))
    ensures line == ErrorLine(path, code, err)
  {
    var head := path + FieldSeparator;
    assert |line| >= |head| && line[..|head|] == head;
    var rest := line[|head|..];
    var k := FieldLength(rest);
    assert k + 2 <= |rest| && rest[k..k + 2] == FieldSeparator;
    var text := rest[..k];
    assert Decimal.StringToInt(text) == Some(code) && err == rest[k + 2..];
    assert text == Decimal.IntToString(code) by {
      Decimal.StringToIntInverse(text, code);
    }
    assert rest == text + FieldSeparator + err;
    assert line == head + rest;
  }

  /** An error line is read back as exactly the code and text it was written from, and nothing else parses. */
  lemma ErrorLineRoundTrip(path: string, line: string, code: int, err: string)
    ensures ParseErrorLine(path, line) == Some((code, err)) <==> line == ErrorLine(path, code, err)
  {
    if line == ErrorLine(path, code, err) {
      ErrorLineParses(path, code, err);
    }
    if ParseErrorLine(path, line) == Some((code, err)) {
      ParsedErrorLineIsWritten(path, line, code, err);
    }
  }

  /** A load-time line is read back as exactly the elapsed text it was written from, and nothing else parses. */
  lemma LoadTimeLineRoundTrip(path: string, line: string, secs: string)
    ensures ParseLoadTimeLine(path, line) == Some(secs) <==> line == LoadTimeLine(path, secs)
  {
  }
}
