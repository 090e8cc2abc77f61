/**
  Reading the settings back from the injected lines.

  Every field of `Settings` can be recovered from the header that
  `Preprocess` writes: `ReadSettings` is that reading, and it inverts
  `HeaderLines`.
 */
module ReadBack {
  import Decimal
  import Lines
  import opened Preferences
  import opened HeaderFacts

  datatype Option<T> = None | Some(value: T)

  /** The text of a MIDI-defaults line before and after its channel. */
  const MidiOpen := "use_midi_defaults channel: \""
  const MidiClose := "\"" + NoSaveTag

  /** The channel a MIDI-defaults line names, or `None` when `line` is not
      a line `Preprocess` would write. */
  function ReadMidiChannel(line: string): Option<Int32> {
    if |line| < |MidiOpen| + |MidiClose|
      || line[..|MidiOpen|] != MidiOpen
      || line[|line| - |MidiClose|..] != MidiClose
    then
      None
    else
      var t := line[|MidiOpen|..|line| - |MidiClose|];
      if t == "*" then
        Some(AllChannels)
      else if Decimal.IsIntText(t) && -0x8000_0000 <= Decimal.ParseInt(t) < 0x8000_0000
        && Decimal.ParseInt(t) != AllChannels
      then
        Some(Decimal.ParseInt(t))
      else
        None
  }

  /** The settings a header announces, or `None` when the lines do not
      start with a MIDI-defaults line. */
  function ReadSettings(lines: seq<string>): Option<Settings> {
    if |lines| == 0 then
      None
    else
      match ReadMidiChannel(lines[0])
      case None => None
      case Some(channel) =>
        Some(Settings(
          logSynths := Line(DebugOff, channel) !in lines,
          logCues := Line(CueLoggingOff, channel) !in lines,
          checkArgs := Line(ArgChecks, channel) in lines,
          enableExternalSynths := Line(ExternalSynths, channel) in lines,
          timingGuarantees := Line(TimingGuarantees, channel) in lines,
          defaultMidiChannel := channel))
  }

  /** A MIDI-defaults line is its fixed opening, its channel text and
      its fixed closing. */
  lemma MidiLineParts(channel: Int32)
    ensures Line(MidiDefaults, channel) == MidiOpen + ChannelText(channel) + MidiClose
  {
    AppendAssoc(MidiOpen + ChannelText(channel), "\"", NoSaveTag);
  }

  lemma AppendAssoc(x: string, y: string, z: string)
    ensures (x + y) + z == x + (y + z)
  {
  }

  /** The three parts of `a + b + c` are found again by slicing. */
  lemma SliceParts(a: string, b: string, c: string)
    ensures (a + b + c)[..|a|] == a
    ensures (a + b + c)[|a|..|a + b + c| - |c|] == b
    ensures (a + b + c)[|a + b + c| - |c|..] == c
  {
  }

  /** Slicing a text at two points and joining the pieces gives it back. */
  lemma Reassemble(x: string, i: nat, j: nat)
    requires i <= j <= |x|
    ensures x == x[..i] + x[i..j] + x[j..]
  {
  }

  /** A line is read as channel `channel` exactly when it is the line
      `Preprocess` writes for that channel. */
  lemma ReadMidiChannelIff(line: string, channel: Int32)
    ensures ReadMidiChannel(line) == Some(channel) <==> line == Line(MidiDefaults, channel)
  {
    MidiLineParts(channel);
    var t := ChannelText(channel);
    if line == Line(MidiDefaults, channel) {
      SliceParts(MidiOpen, t, MidiClose);
      if t != "*" {
        assert Decimal.ParseInt(t) == channel;
      }
    }
    if ReadMidiChannel(line) == Some(channel) {
      var i := |MidiOpen|;
      var j := |line| - |MidiClose|;
      var u := line[i..j];
      if u != "*" {
        Decimal.IntTextRoundTrip(u);
      }
      assert t == u;
      Reassemble(line, i, j);
    }
  }

  /** Reading the header back yields the settings that wrote it. */
  lemma ReadSettingsRoundTrip(s: Settings)
    ensures ReadSettings(HeaderLines(s)) == Some(s)
  {
    var ch := s.defaultMidiChannel;
    EnabledStartsWithMidi(s);
    LinesOfIndex(s, Enabled(s), 0);
    ReadMidiChannelIff(HeaderLines(s)[0], ch);
    LinePresentIff(s, DebugOff);
    LinePresentIff(s, CueLoggingOff);
    LinePresentIff(s, ArgChecks);
    LinePresentIff(s, ExternalSynths);
    LinePresentIff(s, TimingGuarantees);
  }

  /** Different settings always produce different headers: no preference
      is lost in the header. */
  lemma HeaderInjective(s1: Settings, s2: Settings)
    requires Header(s1) == Header(s2)
    ensures s1 == s2
  {
    HeaderLinesAreLines(s1);
    HeaderLinesAreLines(s2);
    Lines.SplitTerminated(HeaderLines(s1), "");
    Lines.SplitTerminated(HeaderLines(s2), "");
    assert Header(s1) + "" == Header(s1) && Header(s2) + "" == Header(s2);
    var n1 := |HeaderLines(s1)|;
    assert HeaderLines(s1) == (HeaderLines(s1) + Lines.SplitLines(""))[..n1];
    assert HeaderLines(s2) == (HeaderLines(s2) + Lines.SplitLines(""))[..|HeaderLines(s2)|];
    assert HeaderLines(s1) == HeaderLines(s2);
    ReadSettingsRoundTrip(s1);
    ReadSettingsRoundTrip(s2);
  }
}
