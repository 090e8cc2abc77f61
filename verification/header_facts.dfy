/**
  What `Preprocess` promises the runtime about the text it produces: the
  code is kept whole after the header, the MIDI-defaults line comes
  first, each preference line is present exactly when its preference
  asks for it, the lines come in a fixed order, and each of them is one
  tagged, newline-terminated line.
 */
module HeaderFacts {
  import Decimal
  import Lines
  import opened Preferences

  /** The number of conditional directives the settings switch on. */
  function ActiveCount(s: Settings): nat {
    (if s.timingGuarantees then 1 else 0)
    + (if s.enableExternalSynths then 1 else 0)
    + (if s.checkArgs then 1 else 0)
    + (if !s.logCues then 1 else 0)
    + (if !s.logSynths then 1 else 0)
  }

  /** `[d]` when the settings switch `d` on, nothing otherwise. */
  function IfActive(s: Settings, d: Directive): seq<Directive> {
    if Active(s, d) then [d] else []
  }

  /** The directives from `LineOrder[k]` on are decided one at a time. */
  lemma SelectFrom(s: Settings, k: nat)
    requires k < |LineOrder|
    ensures Select(s, LineOrder[k..]) == IfActive(s, LineOrder[k]) + Select(s, LineOrder[k + 1..])
  {
    assert LineOrder[k..] == [LineOrder[k]] + LineOrder[k + 1..];
    SelectCons(s, LineOrder[k], LineOrder[k + 1..]);
  }

  /** The MIDI-defaults directive is always injected, and always first. */
  lemma EnabledStartsWithMidi(s: Settings)
    ensures |Enabled(s)| >= 1 && Enabled(s)[0] == MidiDefaults
  {
    SelectFrom(s, 0);
    assert LineOrder[0..] == LineOrder;
  }

  /** Exactly one line per active preference, plus the MIDI line. */
  lemma HeaderLineCount(s: Settings)
    ensures |HeaderLines(s)| == 1 + ActiveCount(s)
  {
    assert LineOrder[|LineOrder|..] == [];
    SelectFrom(s, 5);
    SelectFrom(s, 4);
    SelectFrom(s, 3);
    SelectFrom(s, 2);
    SelectFrom(s, 1);
    SelectFrom(s, 0);
    assert LineOrder[0..] == LineOrder;
  }

  /** The code follows the header untouched: `Preprocess` only prepends. */
  lemma PreprocessKeepsCode(s: Settings, code: string)
    ensures |Preprocess(s, code)| == |Header(s)| + |code|
    ensures Preprocess(s, code)[..|Header(s)|] == Header(s)
    ensures Preprocess(s, code)[|Header(s)|..] == code
  {
    PreprocessIsHeader(s, code);
  }

  /** The channel text is `*`, digits or a minus sign: it can end neither
      the quoted argument nor the line early. */
  lemma ChannelTextCharacters(channel: Int32)
    ensures forall c :: c in ChannelText(channel) ==> c == '*' || c == '-' || Decimal.IsDigit(c)
    ensures '"' !in ChannelText(channel) && '\n' !in ChannelText(channel)
  {
    if channel != AllChannels {
      Decimal.IntTextCharacters(channel);
    }
  }

  lemma TagIsOneLine()
    ensures '\n' !in NoSaveTag
  {
  }

  lemma CommandIsOneLine(d: Directive, channel: Int32)
    ensures '\n' !in Command(d, channel)
  {
    if d == MidiDefaults {
      ChannelTextCharacters(channel);
      assert '\n' !in "use_midi_defaults channel: \"";
    }
  }

  /** No injected line contains a newline, so each is one line of text. */
  lemma LineIsOneLine(d: Directive, channel: Int32)
    ensures Lines.NewlineFree(Line(d, channel))
  {
    TagIsOneLine();
    CommandIsOneLine(d, channel);
  }

  lemma HeaderLinesAreLines(s: Settings)
    ensures Lines.AllNewlineFree(HeaderLines(s))
  {
    forall k | 0 <= k < |HeaderLines(s)| ensures Lines.NewlineFree(HeaderLines(s)[k]) {
      LinesOfIndex(s, Enabled(s), k);
      LineIsOneLine(Enabled(s)[k], s.defaultMidiChannel);
    }
  }

  /** The lines of the result are the header lines followed by the lines
      of the code. */
  lemma PreprocessLines(s: Settings, code: string)
    ensures Lines.SplitLines(Preprocess(s, code)) == HeaderLines(s) + Lines.SplitLines(code)
    ensures |Lines.SplitLines(Preprocess(s, code))| == 1 + ActiveCount(s) + |Lines.SplitLines(code)|
  {
    PreprocessIsHeader(s, code);
    HeaderLinesAreLines(s);
    Lines.SplitTerminated(HeaderLines(s), code);
    HeaderLineCount(s);
  }

  /** The first line of the result is always the MIDI-defaults directive. */
  lemma FirstLineIsMidiDefaults(s: Settings, code: string)
    ensures Lines.SplitLines(Preprocess(s, code))[0] ==
      "use_midi_defaults channel: \"" + ChannelText(s.defaultMidiChannel) + "\"" + NoSaveTag
  {
    PreprocessLines(s, code);
    EnabledStartsWithMidi(s);
    LinesOfIndex(s, Enabled(s), 0);
  }

  /** Every header line carries the no-save tag and the header ends with a
      newline, so the code starts on a fresh line. */
  lemma HeaderLinesTagged(s: Settings)
    ensures forall l :: l in HeaderLines(s) ==>
      |l| >= |NoSaveTag| && l[|l| - |NoSaveTag|..] == NoSaveTag
    ensures Header(s) == Lines.Join(HeaderLines(s)) + "\n"
  {
    forall l | l in HeaderLines(s) ensures |l| >= |NoSaveTag| && l[|l| - |NoSaveTag|..] == NoSaveTag {
      var k :| 0 <= k < |HeaderLines(s)| && HeaderLines(s)[k] == l;
      LinesOfIndex(s, Enabled(s), k);
      var c := Command(Enabled(s)[k], s.defaultMidiChannel);
      assert l == c + NoSaveTag;
    }
    EnabledStartsWithMidi(s);
    Lines.TerminateIsJoin(HeaderLines(s));
  }

  /** The fifth character tells the directives apart. */
  function Key(d: Directive): char {
    match d
    case MidiDefaults => 'm'
    case TimingGuarantees => 't'
    case ExternalSynths => 'e'
    case ArgChecks => 'a'
    case CueLoggingOff => 'c'
    case DebugOff => 'd'
  }

  lemma LineKey(d: Directive, channel: Int32)
    ensures |Line(d, channel)| > 4 && Line(d, channel)[4] == Key(d)
  {
    var c := Command(d, channel);
    match d
    case MidiDefaults =>
      var open := "use_midi_defaults channel: \"";
      assert c == open + (ChannelText(channel) + "\"");
      assert c[4] == open[4] == 'm';
    case TimingGuarantees =>
    case ExternalSynths =>
    case ArgChecks =>
    case CueLoggingOff =>
    case DebugOff =>
  }

  /** Different directives never produce the same line. */
  lemma LineInjective(d1: Directive, d2: Directive, channel: Int32)
    requires Line(d1, channel) == Line(d2, channel)
    ensures d1 == d2
  {
    LineKey(d1, channel);
    LineKey(d2, channel);
  }

  /** A directive's line is in the header exactly when the settings switch
      the directive on. */
  lemma LinePresentIff(s: Settings, d: Directive)
    ensures Line(d, s.defaultMidiChannel) in HeaderLines(s) <==> Active(s, d)
  {
    var ch := s.defaultMidiChannel;
    if Line(d, ch) in HeaderLines(s) {
      var k :| 0 <= k < |HeaderLines(s)| && HeaderLines(s)[k] == Line(d, ch);
      LinesOfIndex(s, Enabled(s), k);
      LineInjective(Enabled(s)[k], d, ch);
      assert Enabled(s)[k] in Enabled(s);
      SelectMembers(s, LineOrder);
    }
    if Active(s, d) {
      assert d in LineOrder by { assert LineOrder[Rank(d)] == d; }
      SelectMembers(s, LineOrder);
      var k :| 0 <= k < |Enabled(s)| && Enabled(s)[k] == d;
      LinesOfIndex(s, Enabled(s), k);
    }
  }

  /** Each preference line, as the runtime reads it, and the preference
      that puts it there. */
  lemma PreferenceLines(s: Settings)
    ensures "use_debug false" + NoSaveTag in HeaderLines(s) <==> !s.logSynths
    ensures "use_cue_logging false" + NoSaveTag in HeaderLines(s) <==> !s.logCues
    ensures "use_arg_checks true" + NoSaveTag in HeaderLines(s) <==> s.checkArgs
    ensures "use_external_synths true" + NoSaveTag in HeaderLines(s) <==> s.enableExternalSynths
    ensures "use_timing_guarantees true" + NoSaveTag in HeaderLines(s) <==> s.timingGuarantees
  {
    LinePresentIff(s, DebugOff);
    LinePresentIff(s, CueLoggingOff);
    LinePresentIff(s, ArgChecks);
    LinePresentIff(s, ExternalSynths);
    LinePresentIff(s, TimingGuarantees);
  }

  /** Top to bottom: MIDI defaults, timing guarantees, external synths,
      argument checks, cue logging, debug. */
  lemma HeaderOrder(s: Settings)
    ensures |HeaderLines(s)| >= 1 && Enabled(s)[0] == MidiDefaults
    ensures forall i :: 0 <= i < |HeaderLines(s)| ==>
      HeaderLines(s)[i] == Line(Enabled(s)[i], s.defaultMidiChannel)
    ensures forall i, j :: 0 <= i < j < |Enabled(s)| ==> Rank(Enabled(s)[i]) < Rank(Enabled(s)[j])
  {
    EnabledStartsWithMidi(s);
    assert Ascending(LineOrder);
    SelectAscending(s, LineOrder);
    forall i | 0 <= i < |HeaderLines(s)|
      ensures HeaderLines(s)[i] == Line(Enabled(s)[i], s.defaultMidiChannel)
    {
      LinesOfIndex(s, Enabled(s), i);
    }
  }

  /** The default settings switch on external synths and argument checks
      and switch off cue logging. */
  lemma DefaultEnabled()
    ensures Enabled(Defaults) == [MidiDefaults, ExternalSynths, ArgChecks, CueLoggingOff]
  {
    var s := Defaults;
    assert LineOrder[|LineOrder|..] == [];
    SelectFrom(s, 5);
    SelectFrom(s, 4);
    assert Select(s, LineOrder[4..]) == [CueLoggingOff];
    SelectFrom(s, 3);
    SelectFrom(s, 2);
    assert Select(s, LineOrder[2..]) == [ExternalSynths, ArgChecks, CueLoggingOff];
    SelectFrom(s, 1);
    SelectFrom(s, 0);
    assert LineOrder[0..] == LineOrder;
  }

  /** With the default settings the header is exactly four lines. */
  lemma DefaultHeaderLines()
    ensures HeaderLines(Defaults) == [
      "use_midi_defaults channel: \"*\"" + NoSaveTag,
      "use_external_synths true" + NoSaveTag,
      "use_arg_checks true" + NoSaveTag,
      "use_cue_logging false" + NoSaveTag]
  {
    var s := Defaults;
    var ds := [MidiDefaults, ExternalSynths, ArgChecks, CueLoggingOff];
    DefaultEnabled();
    assert Command(MidiDefaults, AllChannels) == "use_midi_defaults channel: \"*\"";
    LinesOfIndex(s, ds, 0);
    LinesOfIndex(s, ds, 1);
    LinesOfIndex(s, ds, 2);
    LinesOfIndex(s, ds, 3);
  }
}
