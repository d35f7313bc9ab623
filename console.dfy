/**
 * Coloured console logging (`Console::LOG`, `Console::LOGN`). Each function
 * returns the exact text written to standard output; the stream itself is
 * not modelled.
 */
module Console {
  import opened Wrappers

  datatype Color = Red | Green | Yellow | Default

  const Esc: char := '\U{1B}'

  /** The SGR reset sequence, ESC [ 0 m, written after every message. */
  const Reset: string := [Esc] + "[0m"

  /** ANSI escape sequence selecting `color`; every colour without its own code resets. */
  function ColorCode(color: Color): (r: string)
    ensures |r| >= 4 && r[0] == Esc && r[1] == '[' && r[|r| - 1] == 'm'
    ensures r == Reset <==> color == Default
    ensures color != Default ==> |r| == 5 && r[2] == '3'
  {
    match color
    case Red => [Esc] + "[31m"
    case Green => [Esc] + "[32m"
    case Yellow => [Esc] + "[33m"
    case Default => Reset
  }

  /** The colour codes of distinct colours are distinct. */
  lemma ColorCodeInjective(c: Color, d: Color)
    ensures ColorCode(c) == ColorCode(d) ==> c == d
  {
    assert c != d ==> ColorCode(c)[3] != ColorCode(d)[3];
  }

  /** What `LOG(text, color)` writes: colour code, the text, then a reset. */
  function Log(text: string, color: Color := Default): (r: string)
    ensures |r| == |ColorCode(color)| + |text| + |Reset|
    ensures r[..|ColorCode(color)|] == ColorCode(color)
    ensures r[|ColorCode(color)|..|r| - |Reset|] == text
    ensures r[|r| - |Reset|..] == Reset
  {
    ColorCode(color) + text + Reset
  }

  /** What `LOGN(text, color)` writes: the same as `LOG` of the text with a newline appended. */
  function LogLine(text: string, color: Color := Default): (r: string)
    ensures r == Log(text + "\n", color)
    ensures r[|r| - |Reset| - 1] == '\n'
  {
    Log(text + "\n", color)
  }

  /** Without a colour argument, a message is framed by two resets. */
  lemma DefaultColorResets(text: string)
    ensures Log(text) == Reset + text + Reset
    ensures LogLine(text) == Reset + text + "\n" + Reset
  {
  }

  /**
   * Reads back a logged message: recognises the leading colour code and the
   * trailing reset, and returns the colour and the text between them.
   */
  function ParseLogged(s: string): (r: Option<(Color, string)>)
  {
    var color :=
      if |s| >= 5 && s[..5] == ColorCode(Red) then Some(Red)
      else if |s| >= 5 && s[..5] == ColorCode(Green) then Some(Green)
      else if |s| >= 5 && s[..5] == ColorCode(Yellow) then Some(Yellow)
      else if |s| >= 4 && s[..4] == Reset then Some(Default)
      else None;
    if color.None? then None
    else
      var start := |ColorCode(color.value)|;
      if |s| >= start + |Reset| && s[|s| - |Reset|..] == Reset
      then Some((color.value, s[start..|s| - |Reset|]))
      else None
  }

  /** Every message `LOG` writes can be read back to the colour and text it was given. */
  lemma LogRoundTrip(text: string, color: Color)
    ensures ParseLogged(Log(text, color)) == Some((color, text))
  {
    var s := Log(text, color);
    var code := ColorCode(color);
    assert s[..|code|] == code;
    if color == Default {
      assert s[..4] == Reset;
      assert |s| >= 5 ==> s[..5][..4] == s[..4];
      assert |s| >= 5 ==> s[..5][3] == 'm';
    } else {
      assert s[..5] == code;
      assert color != Red ==> code[3] != ColorCode(Red)[3];
      assert color != Green ==> code[3] != ColorCode(Green)[3];
    }
    assert s[|code|..|s| - |Reset|] == text;
  }

  /** `LOGN` messages read back to the text followed by a newline. */
  lemma LogLineRoundTrip(text: string, color: Color)
    ensures ParseLogged(LogLine(text, color)) == Some((color, text + "\n"))
  {
    LogRoundTrip(text + "\n", color);
  }
}
