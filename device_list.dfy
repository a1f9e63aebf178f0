/**
 * How `refresh_device` turns the standard output of `adb devices` into the
 * identifier of the active device: the text is split into lines as Rust's
 * `str::lines` does, and the first whitespace-delimited token of the second
 * line (the first device entry after the header) is the device, with two
 * sentinel strings for "no entry line" and "blank entry line".
 */
module DeviceList {
  import opened Wrappers

  /** Returned when the output has no line after the header. */
  const NoDevicesFound: string := "No devices found"

  /** Returned when the first entry line holds no token. */
  const NoValidDevice: string := "No valid device"

  /** Rust's `char::is_whitespace`: the characters with the Unicode White_Space property. */
  predicate IsWhitespace(c: char) {
    ('\t' <= c <= '\r') || c == ' ' || c == '\U{85}' || c == '\U{A0}' || c == '\U{1680}'
    || ('\U{2000}' <= c <= '\U{200A}') || c == '\U{2028}' || c == '\U{2029}'
    || c == '\U{202F}' || c == '\U{205F}' || c == '\U{3000}'
  }

  predicate AllWhitespace(s: string) {
    forall i :: 0 <= i < |s| ==> IsWhitespace(s[i])
  }

  predicate NoWhitespace(s: string) {
    forall i :: 0 <= i < |s| ==> !IsWhitespace(s[i])
  }

  // ---------------------------------------------------------------------------
  // str::lines
  // ---------------------------------------------------------------------------

  /** The index of the first '\n' of `s`, or `|s|` when there is none. */
  function LineEnd(s: string): (k: nat)
    ensures k <= |s|
    ensures forall i :: 0 <= i < k ==> s[i] != '\n'
    ensures k < |s| ==> s[k] == '\n'
  {
    if s == [] || s[0] == '\n' then 0 else 1 + LineEnd(s[1..])
  }

  /** Drops one '\r' at the end of a line that was terminated by '\n'. */
  function StripCarriageReturn(line: string): (r: string)
    ensures line == r || line == r + ['\r']
    ensures r == line <==> line == [] || line[|line| - 1] != '\r'
  {
    if line != [] && line[|line| - 1] == '\r' then line[..|line| - 1] else line
  }

  /**
   * Rust's `str::lines`: the text is cut after every '\n'; a piece that ended
   * in '\n' loses it and then one '\r' before it, if any; a last piece with no
   * '\n' is kept as it is; a final '\n' does not start an empty last line.
   */
  function Lines(s: string): (lines: seq<string>)
    ensures forall l <- lines :: '\n' !in l
    ensures lines == [] <==> s == []
    decreases |s|
  {
    if s == [] then []
    else
      var k := LineEnd(s);
      if k == |s| then [s]
      else [StripCarriageReturn(s[..k])] + Lines(s[k + 1..])
  }

  // ---------------------------------------------------------------------------
  // str::split_whitespace
  // ---------------------------------------------------------------------------

  /**
   * The length of the longest prefix of `s` whose characters are all
   * whitespace (`ws`) or all not whitespace (`!ws`).
   */
  function Run(s: string, ws: bool): (n: nat)
    ensures n <= |s|
    ensures forall i :: 0 <= i < n ==> IsWhitespace(s[i]) == ws
    ensures n < |s| ==> IsWhitespace(s[n]) != ws
  {
    if s == [] || IsWhitespace(s[0]) != ws then 0 else 1 + Run(s[1..], ws)
  }

  /**
   * Rust's `str::split_whitespace`: the non-whitespace runs of `s`, in order.
   * The contract gives each token's shape; `FirstTokenPosition` places the
   * first token, the only one `refresh_device` reads.
   */
  function SplitWhitespace(s: string): (words: seq<string>)
    ensures forall w <- words :: w != [] && NoWhitespace(w)
    decreases |s|
  {
    var a := Run(s, true);
    if a == |s| then []
    else
      var b := Run(s[a..], false);
      assert b > 0 by { assert s[a..][0] == s[a]; }
      [s[a..a + b]] + SplitWhitespace(s[a + b..])
  }

  /** `split_whitespace().next()`: the first token of a line, if it has one. */
  function FirstToken(line: string): (t: Option<string>)
    ensures t.Some? ==> t.value != [] && NoWhitespace(t.value) && |t.value| <= |line|
  {
    var words := SplitWhitespace(line);
    if words == [] then None else Some(words[0])
  }

  // ---------------------------------------------------------------------------
  // refresh_device
  // ---------------------------------------------------------------------------

  /**
   * The device identifier that `refresh_device` derives from the standard
   * output of `adb devices`.
   */
  function RefreshDevice(devicesOutput: string): (device: string)
    ensures device == NoDevicesFound <==> |Lines(devicesOutput)| < 2
    ensures |Lines(devicesOutput)| >= 2 ==>
              (device == NoValidDevice <==> AllWhitespace(Lines(devicesOutput)[1]))
    ensures device != NoDevicesFound && device != NoValidDevice ==>
              device != [] && NoWhitespace(device)
    ensures |Lines(devicesOutput)| >= 2 && !AllWhitespace(Lines(devicesOutput)[1]) ==>
              var line := Lines(devicesOutput)[1];
              exists i :: 0 <= i && i + |device| <= |line| && AllWhitespace(line[..i])
                          && line[i..i + |device|] == device
                          && (i + |device| == |line| || IsWhitespace(line[i + |device|]))
  {
    var lines := Lines(devicesOutput);
    if |lines| > 1 then
      BlankIffNoToken(lines[1]);
      FirstTokenPosition(lines[1]);
      assert IsWhitespace(NoDevicesFound[2]) && IsWhitespace(NoValidDevice[2]);
      FirstToken(lines[1]).UnwrapOr(NoValidDevice)
    else
      NoDevicesFound
  }

  // ---------------------------------------------------------------------------
  // Lemmas
  // ---------------------------------------------------------------------------

  /** A line has no token exactly when it is empty or all whitespace. */
  lemma BlankIffNoToken(line: string)
    ensures FirstToken(line) == None <==> AllWhitespace(line)
    ensures FirstToken(line).Some? ==> FirstToken(line).value != [] && NoWhitespace(FirstToken(line).value)
  {
    var a := Run(line, true);
    if a < |line| {
      assert !IsWhitespace(line[a]);
    }
  }

  /**
   * The token is the first non-whitespace run of the line: all before it is
   * whitespace, and it ends at the end of the line or at a whitespace character.
   */
  lemma FirstTokenPosition(line: string)
    ensures FirstToken(line).Some? ==>
            var t := FirstToken(line).value;
            var i := Run(line, true);
            i + |t| <= |line| && AllWhitespace(line[..i]) && line[i..i + |t|] == t
            && (i + |t| == |line| || IsWhitespace(line[i + |t|]))
  {
    if FirstToken(line).None? { return; }
    var a := Run(line, true);
    var b := Run(line[a..], false);
    assert FirstToken(line).value == line[a..a + b];
    if a + b < |line| {
      assert line[a..][b] == line[a + b];
    }
  }

  /** Running a prefix and then the rest: how `Run` distributes over concatenation. */
  lemma {:induction false} RunAppend(s: string, t: string, ws: bool)
    ensures Run(s, ws) < |s| ==> Run(s + t, ws) == Run(s, ws)
    ensures Run(s, ws) == |s| ==> Run(s + t, ws) == |s| + Run(t, ws)
  {
    if s != [] {
      assert (s + t)[0] == s[0];
      if IsWhitespace(s[0]) == ws {
        assert (s + t)[1..] == s[1..] + t;
        RunAppend(s[1..], t, ws);
      }
    } else {
      assert s + t == t;
    }
  }

  /** Whitespace at the end of a line does not change its first token. */
  lemma TrailingWhitespaceKeepsToken(line: string, c: char)
    requires IsWhitespace(c)
    ensures FirstToken(line + [c]) == FirstToken(line)
  {
    var s := line + [c];
    var a := Run(line, true);
    RunAppend(line, [c], true);
    if a == |line| {
      assert Run([c], true) == 1 by { assert [c][1..] == []; }
      assert Run(s, true) == |s|;
    } else {
      assert Run(s, true) == a;
      var b := Run(line[a..], false);
      assert s[a..] == line[a..] + [c];
      RunAppend(line[a..], [c], false);
      assert Run(s[a..], false) == b;
      assert s[a..a + b] == line[a..a + b];
    }
  }

  /** The '\r' that `lines` strips never matters to the token. */
  lemma StripCarriageReturnKeepsToken(line: string)
    ensures FirstToken(StripCarriageReturn(line)) == FirstToken(line)
  {
    if line != [] && line[|line| - 1] == '\r' {
      var p := line[..|line| - 1];
      assert line == p + ['\r'];
      TrailingWhitespaceKeepsToken(p, '\r');
    }
  }

  /** A line terminated by '\n' is the first line, and the rest is split on its own. */
  lemma LinesOfTerminatedLine(line: string, rest: string)
    requires '\n' !in line
    ensures Lines(line + "\n" + rest) == [StripCarriageReturn(line)] + Lines(rest)
  {
    var s := line + "\n" + rest;
    var k := LineEnd(s);
    assert s[|line|] == '\n';
    assert forall i :: 0 <= i < |line| ==> s[i] == line[i];
    assert k == |line|;
    assert s[..k] == line;
    assert s[k + 1..] == rest;
  }

  /** Rust's `lines` inverts joining lines that each end in "\n". */
  lemma {:induction false} LinesOfJoined(lines: seq<string>)
    requires forall l <- lines :: '\n' !in l && (l == [] || l[|l| - 1] != '\r')
    ensures Lines(JoinTerminated(lines)) == lines
  {
    if lines != [] {
      LinesOfTerminatedLine(lines[0], JoinTerminated(lines[1..]));
      assert JoinTerminated(lines) == lines[0] + "\n" + JoinTerminated(lines[1..]);
      LinesOfJoined(lines[1..]);
    }
  }

  /** Each line followed by "\n", all concatenated. */
  function JoinTerminated(lines: seq<string>): string {
    if lines == [] then "" else lines[0] + "\n" + JoinTerminated(lines[1..])
  }

  /**
   * "Fewer than two lines" on the raw text: no '\n' occurs anywhere except,
   * possibly, as the very last character.
   */
  lemma FewerThanTwoLines(s: string)
    ensures |Lines(s)| < 2 <==> forall i :: 0 <= i < |s| - 1 ==> s[i] != '\n'
  {
    if s != [] {
      var k := LineEnd(s);
      if k < |s| - 1 {
        assert |Lines(s[k + 1..])| > 0;
      }
    }
  }

  /** Everything after the first entry line is ignored. */
  lemma LaterLinesIgnored(header: string, entry: string, rest: string)
    requires '\n' !in header && '\n' !in entry
    ensures RefreshDevice(header + "\n" + entry + "\n" + rest)
            == FirstToken(entry).UnwrapOr(NoValidDevice)
  {
    var s := header + "\n" + entry + "\n" + rest;
    assert s == header + "\n" + (entry + "\n" + rest);
    LinesOfTerminatedLine(header, entry + "\n" + rest);
    LinesOfTerminatedLine(entry, rest);
    StripCarriageReturnKeepsToken(entry);
  }

  /** An entry line that ends the output without a final '\n' is read the same way. */
  lemma LastEntryLine(header: string, entry: string)
    requires '\n' !in header && '\n' !in entry && entry != []
    ensures RefreshDevice(header + "\n" + entry) == FirstToken(entry).UnwrapOr(NoValidDevice)
  {
    LinesOfTerminatedLine(header, entry);
    assert Lines(entry) == [entry];
  }

  /**
   * The shape `adb devices` prints for an attached device, "<serial>\t<state>":
   * the serial is the device.
   */
  lemma SerialOfDeviceLine(header: string, serial: string, state: string, rest: string)
    requires '\n' !in header && '\n' !in state
    requires serial != [] && NoWhitespace(serial)
    ensures RefreshDevice(header + "\n" + serial + "\t" + state + "\n" + rest) == serial
  {
    var tail := "\t" + state;
    var entry := serial + tail;
    assert '\n' !in entry by {
      forall i | 0 <= i < |serial| ensures serial[i] != '\n' { assert !IsWhitespace(serial[i]); }
    }
    assert header + "\n" + serial + "\t" + state + "\n" + rest == header + "\n" + entry + "\n" + rest;
    LaterLinesIgnored(header, entry, rest);
    assert Run(entry, true) == 0 by { assert entry[0] == serial[0]; }
    assert Run(tail, false) == 0 by { assert tail[0] == '\t'; }
    RunAppend(serial, tail, false);
    assert entry[0..] == entry;
    assert entry[0..|serial|] == serial;
    assert SplitWhitespace(entry)[0] == serial;
  }

  /** The output of `adb devices` with nothing attached: the header and an empty line. */
  lemma NothingAttached(header: string)
    requires '\n' !in header
    ensures RefreshDevice(header + "\n" + "\n") == NoValidDevice
  {
    LaterLinesIgnored(header, "", "");
    assert header + "\n" + "" + "\n" + "" == header + "\n" + "\n";
  }

  /** Only the header: no device line at all. */
  lemma HeaderOnly(header: string)
    requires '\n' !in header
    ensures RefreshDevice(header) == NoDevicesFound
    ensures RefreshDevice(header + "\n") == NoDevicesFound
  {
    FewerThanTwoLines(header);
    FewerThanTwoLines(header + "\n");
  }
}
