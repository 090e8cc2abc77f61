/**
  The GUI user preferences that travel with every buffer the user runs
  (`APISettings` in app/api/include/api/sonicpi_api.h).

  `Preprocess` puts one directive line in front of the source text for
  each of five conditions on the settings that holds, and always a
  MIDI-defaults line on top. The text and the order of these lines are
  fixed.

  The model keeps two descriptions apart: `Preprocess` follows the member
  function step by step (five conditional prepends, then the MIDI line),
  while `Header` is the declarative description — the active directives,
  taken in `LineOrder`, each written as one terminated line.
 */
module Preferences {
  import Decimal
  import Lines

  /** A C++ `int`. */
  type Int32 = i: int | -0x8000_0000 <= i < 0x8000_0000

  datatype Settings = Settings(
    logSynths: bool,
    logCues: bool,
    checkArgs: bool,
    enableExternalSynths: bool,
    timingGuarantees: bool,
    defaultMidiChannel: Int32)

  /** The channel value that means "every channel". */
  const AllChannels: Int32 := -1

  /** The default member initialisers of `APISettings`. */
  const Defaults := Settings(
    logSynths := true,
    logCues := false,
    checkArgs := true,
    enableExternalSynths := true,
    timingGuarantees := false,
    defaultMidiChannel := AllChannels)

  /** The trailer every injected line carries; `#` starts a comment in the
      runtime's language, so the tag does not change what the line does. */
  const NoSaveTag := " #__nosave__ set by Qt GUI user preferences."

  /** The text between the quotes of the MIDI-defaults directive. */
  function ChannelText(channel: Int32): (t: string)
    ensures t == "*" <==> channel == AllChannels
    ensures channel != AllChannels ==> Decimal.IsIntText(t) && Decimal.ParseInt(t) == channel
  {
    if channel == AllChannels then "*" else Decimal.IntToString(channel)
  }

  /** The directives `Preprocess` can inject. */
  datatype Directive =
    | MidiDefaults
    | TimingGuarantees
    | ExternalSynths
    | ArgChecks
    | CueLoggingOff
    | DebugOff

  /** Whether the directive is injected under the given settings. */
  predicate Active(s: Settings, d: Directive) {
    match d
    case MidiDefaults => true
    case TimingGuarantees => s.timingGuarantees
    case ExternalSynths => s.enableExternalSynths
    case ArgChecks => s.checkArgs
    case CueLoggingOff => !s.logCues
    case DebugOff => !s.logSynths
  }

  /** The runtime call a directive stands for; only the MIDI-defaults call
      depends on the channel. */
  function Command(d: Directive, channel: Int32): string {
    match d
    case MidiDefaults => "use_midi_defaults channel: \"" + ChannelText(channel) + "\""
    case TimingGuarantees => "use_timing_guarantees true"
    case ExternalSynths => "use_external_synths true"
    case ArgChecks => "use_arg_checks true"
    case CueLoggingOff => "use_cue_logging false"
    case DebugOff => "use_debug false"
  }

  /** One injected line, without its newline. */
  function Line(d: Directive, channel: Int32): string {
    Command(d, channel) + NoSaveTag
  }

  /** Top-to-bottom order of the injected lines. */
  const LineOrder: seq<Directive> :=
    [MidiDefaults, TimingGuarantees, ExternalSynths, ArgChecks, CueLoggingOff, DebugOff]

  /** Position of a directive in `LineOrder`. */
  function Rank(d: Directive): (k: nat)
    ensures k < |LineOrder| && LineOrder[k] == d
  {
    match d
    case MidiDefaults => 0
    case TimingGuarantees => 1
    case ExternalSynths => 2
    case ArgChecks => 3
    case CueLoggingOff => 4
    case DebugOff => 5
  }

  /** Directives listed in strictly increasing `LineOrder` position. */
  predicate Ascending(ds: seq<Directive>) {
    forall i, j :: 0 <= i < j < |ds| ==> Rank(ds[i]) < Rank(ds[j])
  }

  /** The active directives of `ds`, in the order of `ds`. */
  function Select(s: Settings, ds: seq<Directive>): seq<Directive> {
    if ds == [] then
      []
    else
      var tail := Select(s, ds[1..]);
      if Active(s, ds[0]) then [ds[0]] + tail else tail
  }

  /** Selecting keeps exactly the active directives. */
  lemma {:induction false} SelectMembers(s: Settings, ds: seq<Directive>)
    ensures forall d :: d in Select(s, ds) <==> d in ds && Active(s, d)
    decreases |ds|
  {
    if ds != [] {
      SelectMembers(s, ds[1..]);
      assert ds == [ds[0]] + ds[1..];
    }
  }

  /** Selecting keeps the relative order of the directives. */
  lemma {:induction false} SelectAscending(s: Settings, ds: seq<Directive>)
    requires Ascending(ds)
    ensures Ascending(Select(s, ds))
    decreases |ds|
  {
    if ds != [] {
      var tail := Select(s, ds[1..]);
      assert Ascending(ds[1..]);
      SelectAscending(s, ds[1..]);
      if Active(s, ds[0]) {
        SelectMembers(s, ds[1..]);
        forall d | d in tail ensures Rank(ds[0]) < Rank(d) {
          var j :| 0 <= j < |ds[1..]| && ds[1..][j] == d;
          assert ds[j + 1] == d;
        }
        var r := [ds[0]] + tail;
        forall i, j | 0 <= i < j < |r| ensures Rank(r[i]) < Rank(r[j]) {
          if i == 0 {
            assert r[j] == tail[j - 1];
            assert r[j] in tail;
          } else {
            assert r[i] == tail[i - 1] && r[j] == tail[j - 1];
          }
        }
      }
    }
  }

  /** The directives injected under the given settings, top to bottom. */
  function Enabled(s: Settings): seq<Directive> {
    Select(s, LineOrder)
  }

  /** The lines of the directives `ds`, written for the settings' channel. */
  function LinesOf(s: Settings, ds: seq<Directive>): (ls: seq<string>)
    ensures |ls| == |ds|
  {
    if ds == [] then [] else [Line(ds[0], s.defaultMidiChannel)] + LinesOf(s, ds[1..])
  }

  /** The `i`-th line is the line of the `i`-th directive. */
  lemma {:induction false} LinesOfIndex(s: Settings, ds: seq<Directive>, i: nat)
    requires i < |ds|
    ensures LinesOf(s, ds)[i] == Line(ds[i], s.defaultMidiChannel)
    decreases i
  {
    if i > 0 {
      LinesOfIndex(s, ds[1..], i - 1);
    }
  }

  /** The directives `ds` as a block of newline-terminated lines. */
  function Block(s: Settings, ds: seq<Directive>): string {
    Lines.Terminate(LinesOf(s, ds))
  }

  /** The injected lines, top to bottom. */
  function HeaderLines(s: Settings): seq<string> {
    LinesOf(s, Enabled(s))
  }

  /** Everything `Preprocess` puts in front of the code. */
  function Header(s: Settings): string {
    Block(s, Enabled(s))
  }

  /** `line` followed by a newline, in front of `code`. */
  function Prepend(line: string, code: string): string {
    line + "\n" + code
  }

  /** One conditional step of `Preprocess`. */
  function PrependIf(condition: bool, line: string, code: string): string {
    if condition then Prepend(line, code) else code
  }

  /** `APISettings::Preprocess`: each step prepends to the text built so
      far, so the last line written ends up first. The settings are passed
      by value, as the member function is `const`. */
  function Preprocess(s: Settings, code: string): string {
    var ch := s.defaultMidiChannel;
    var c1 := PrependIf(!s.logSynths, Line(DebugOff, ch), code);
    var c2 := PrependIf(!s.logCues, Line(CueLoggingOff, ch), c1);
    var c3 := PrependIf(s.checkArgs, Line(ArgChecks, ch), c2);
    var c4 := PrependIf(s.enableExternalSynths, Line(ExternalSynths, ch), c3);
    var c5 := PrependIf(s.timingGuarantees, Line(TimingGuarantees, ch), c4);
    Prepend(Line(MidiDefaults, ch), c5)
  }

  /** The step-by-step transform and the declarative description agree:
      the result is the header followed by the untouched code. */
  lemma PreprocessIsHeader(s: Settings, code: string)
    ensures Preprocess(s, code) == Header(s) + code
  {
    OrderedTailEmpty(s, code);
    PrependStep(s, DebugOff, code);
    PrependStep(s, CueLoggingOff, code);
    PrependStep(s, ArgChecks, code);
    PrependStep(s, ExternalSynths, code);
    PrependStep(s, TimingGuarantees, code);
    PrependStep(s, MidiDefaults, code);
    assert LineOrder[0..] == LineOrder;
  }

  /** The step of `Preprocess` for `d`: prepending its line when it is
      active turns the block of the directives after `d` into the block
      from `d` on. */
  lemma PrependStep(s: Settings, d: Directive, code: string)
    ensures PrependIf(Active(s, d), Line(d, s.defaultMidiChannel), OrderedTail(s, Rank(d) + 1, code))
      == OrderedTail(s, Rank(d), code)
  {
    PrependStepAt(s, Rank(d), code);
  }

  lemma PrependStepAt(s: Settings, k: nat, code: string)
    requires k < |LineOrder|
    ensures PrependIf(Active(s, LineOrder[k]), Line(LineOrder[k], s.defaultMidiChannel), OrderedTail(s, k + 1, code))
      == OrderedTail(s, k, code)
  {
    var later := LineOrder[k + 1..];
    assert LineOrder[k..] == [LineOrder[k]] + later;
    SelectCons(s, LineOrder[k], later);
    if Active(s, LineOrder[k]) {
      BlockCons(s, LineOrder[k], Select(s, later));
    }
  }

  /** The block of the active directives from `LineOrder[k]` on, in front
      of `code`: what `Preprocess` has built once it has handled
      `LineOrder[k]`. */
  function OrderedTail(s: Settings, k: nat, code: string): string
    requires k <= |LineOrder|
  {
    Block(s, Select(s, LineOrder[k..])) + code
  }

  /** Before any step, nothing has been prepended. */
  lemma OrderedTailEmpty(s: Settings, code: string)
    ensures OrderedTail(s, |LineOrder|, code) == code
  {
    assert LineOrder[|LineOrder|..] == [];
  }

  /** Selecting from `[d] + ds` decides `d` first. */
  lemma SelectCons(s: Settings, d: Directive, ds: seq<Directive>)
    ensures Select(s, [d] + ds) == if Active(s, d) then [d] + Select(s, ds) else Select(s, ds)
  {
    assert ([d] + ds)[1..] == ds;
  }

  /** A block starting with `d` starts with the line of `d`. */
  lemma BlockCons(s: Settings, d: Directive, ds: seq<Directive>)
    ensures Block(s, [d] + ds) == Line(d, s.defaultMidiChannel) + "\n" + Block(s, ds)
  {
    assert ([d] + ds)[1..] == ds;
  }
}
