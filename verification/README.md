# Sonic Pi GUI preferences injected into run code

Sonic Pi's GUI sends the user's code to the runtime after putting a few
directive lines in front of it. The lines come from `APISettings`, the
struct of user preferences that the API layer keeps:

- synth logging;
- cue logging;
- argument checks;
- external synths;
- timing guarantees;
- the default MIDI channel.

`APISettings::Preprocess` prepends these lines as follows:

- one line for each of five conditions that holds (synth logging off,
  cue logging off, argument checks on, external synths on, timing
  guarantees on);
- always a `use_midi_defaults` line, on top.

Every line carries the comment ` #__nosave__ set by Qt GUI user preferences.`
and ends in a newline.

The project models that struct and that member function. It proves the
following:

- `Preprocess` only prepends. The result is a header followed by the
  untouched code.
- The header has a declarative description: the active directives in a
  fixed order, one terminated line each. The step-by-step transform equals
  it.
- The header's lines are exactly the following:
  - the MIDI line first;
  - each preference line present exactly when its preference asks for it;
  - the lines in the order midi, timing, external synths, argument checks,
    cue logging, debug;
  - `1 + (number of active preferences)` lines;
  - every line tagged and newline-free.
- The channel is written as `*` for -1. Any other channel is written as
  `std::to_string` writes it, and that text reads back as the same int.
- The default settings give exactly four lines.
- No preference is lost. The settings can be read back from the header,
  so different settings always give different headers.

Files:

- `decimal.dfy` (module `Decimal`): the `std::to_string(int)` rendering,
  and an independent parser proved to invert it.
- `lines.dfy` (module `Lines`): splitting text into lines, joining lines,
  and terminating lines, with their inverse laws.
- `preferences.dfy` (module `Preferences`): `Settings`, the defaults, the
  directive lines, `Preprocess`, the declarative `Header`, and the proof
  that the two agree.
- `header_facts.dfy` (module `HeaderFacts`): the properties of the header
  listed above.
- `read_back.dfy` (module `ReadBack`): reading the settings back from the
  header lines, and injectivity of the header.

## Model

| member | source | states |
|---|---|---|
| Preferences.Preprocess | app/api/include/api/sonicpi_api.h:225-253 | the five conditional prepends in source order, then the unconditional MIDI line; no ensures of its own, its behaviour is stated by `Preferences.PreprocessIsHeader` and the `HeaderFacts` lemmas |
| Preferences.PreprocessIsHeader | app/api/include/api/sonicpi_api.h:225-253 | the five conditional prepends followed by the MIDI prepend produce exactly the declarative header (active directives in line order, each a terminated line) followed by the unchanged code |
| HeaderFacts.PreprocessKeepsCode | app/api/include/api/sonicpi_api.h:225-253 | the result is as long as header plus code, starts with the header and its suffix after the header is exactly the original code |
| HeaderFacts.PreprocessLines | app/api/include/api/sonicpi_api.h:225-253 | split into lines, the result is the header lines followed by the code's own lines, and there are 1 + (number of active preferences) + (code lines) of them |
| HeaderFacts.FirstLineIsMidiDefaults | app/api/include/api/sonicpi_api.h:252 | the first line of the result is always `use_midi_defaults channel: "<channel>"` with the no-save tag, whatever the other settings and the code |
| Preferences.ChannelText | app/api/include/api/sonicpi_api.h:252 | the channel text is `*` exactly when the channel is -1; otherwise it is canonical decimal text that parses back to the channel |
| Decimal.IntToString | app/api/include/api/sonicpi_api.h:252 | the rendering of an int is canonical decimal text (no leading zero, minus sign only for negatives) that an independent parser reads back as the same int |
| Decimal.IntTextRoundTrip | app/api/include/api/sonicpi_api.h:252 | every canonical decimal text is the rendering of the int it denotes, so rendering and parsing are mutually inverse |
| Decimal.NatTextRoundTrip | app/api/include/api/sonicpi_api.h:252 | every canonical digit string is the rendering of the natural number it denotes |
| Decimal.IntTextCharacters | app/api/include/api/sonicpi_api.h:252 | a rendered int holds only digits and the minus sign, so it cannot close the quoted channel argument or break the line |
| HeaderFacts.ChannelTextCharacters | app/api/include/api/sonicpi_api.h:252 | the channel text holds only `*`, `-` and digits, never a quote or a newline |
| HeaderFacts.LinePresentIff | app/api/include/api/sonicpi_api.h:227-252 | a directive's line is among the header lines exactly when the settings switch that directive on |
| HeaderFacts.PreferenceLines | app/api/include/api/sonicpi_api.h:227-250 | each of the five literal preference lines is in the header iff its condition holds: `use_debug false` iff synth logging is off, `use_cue_logging false` iff cue logging is off, `use_arg_checks true` iff checks are on, `use_external_synths true` iff external synths are on, `use_timing_guarantees true` iff timing guarantees are on |
| HeaderFacts.HeaderOrder | app/api/include/api/sonicpi_api.h:227-252 | the header starts with the MIDI line, its i-th line is the line of the i-th enabled directive, and enabled directives appear in strictly increasing position of midi, timing, external, arg, cue, debug |
| HeaderFacts.HeaderLineCount | app/api/include/api/sonicpi_api.h:227-252 | the header has exactly 1 + `ActiveCount(s)` lines, where `ActiveCount` counts which of the five conditions tested at lines 227-247 hold (three of them under the member defaults) |
| HeaderFacts.EnabledStartsWithMidi | app/api/include/api/sonicpi_api.h:252 | the MIDI-defaults directive is enabled for every setting and is the first one |
| HeaderFacts.HeaderLinesTagged | app/api/include/api/sonicpi_api.h:229-252 | every header line ends with the no-save tag, and the header is its lines joined by newlines plus a final newline |
| HeaderFacts.HeaderLinesAreLines | app/api/include/api/sonicpi_api.h:229-252 | no header line contains a newline, so each injected directive is one line of the runtime's input |
| HeaderFacts.LineIsOneLine | app/api/include/api/sonicpi_api.h:229-252 | a single directive line, for any channel, holds no newline |
| HeaderFacts.LineInjective | app/api/include/api/sonicpi_api.h:229-252 | two different directives never produce the same line |
| HeaderFacts.DefaultEnabled | app/api/include/api/sonicpi_api.h:218-223 | with the default member values the enabled directives are midi, external synths, argument checks and cue logging, in that order |
| HeaderFacts.DefaultHeaderLines | app/api/include/api/sonicpi_api.h:218-253 | with the default member values the header is exactly four lines: MIDI on channel `*`, external synths on, argument checks on, cue logging off |
| Preferences.SelectMembers | app/api/include/api/sonicpi_api.h:227-250 | selecting directives keeps exactly those that are both listed and active |
| Preferences.SelectAscending | app/api/include/api/sonicpi_api.h:227-252 | selecting directives keeps their relative order |
| Preferences.Rank | app/api/include/api/sonicpi_api.h:227-252 | every directive has a position in the fixed top-to-bottom order, and that position holds it |
| ReadBack.ReadMidiChannelIff | app/api/include/api/sonicpi_api.h:252 | a line is read as channel c exactly when it is the MIDI line written for c |
| ReadBack.ReadSettingsRoundTrip | app/api/include/api/sonicpi_api.h:216-253 | reading the header lines back gives exactly the settings that wrote them |
| ReadBack.HeaderInjective | app/api/include/api/sonicpi_api.h:216-253 | equal headers come only from equal settings: no preference is lost in the header |
| Lines.JoinSplit | app/api/include/api/sonicpi_api.h:225-253 | joining the lines of a text with newlines gives the text back; with `Lines.SplitJoin` this validates `SplitLines` as the notion of line used by `HeaderFacts.PreprocessLines` and `HeaderFacts.FirstLineIsMidiDefaults` |
| Lines.SplitTerminated | app/api/include/api/sonicpi_api.h:229-252 | the lines of newline-free terminated lines followed by a text are those lines followed by that text's lines |
| Lines.SplitJoin | app/api/include/api/sonicpi_api.h:225-253 | splitting newline-free lines joined by newlines gives the lines back; with `Lines.JoinSplit` this validates `SplitLines` as the notion of line used by `HeaderFacts.PreprocessLines` and `HeaderFacts.FirstLineIsMidiDefaults` |

## Left out

- `SonicPiAPI` (app/api/include/api/sonicpi_api.h:256-362) is left out. It only declares its methods. Their bodies start processes, speak OSC over UDP and touch the filesystem, and none of them is part of this model.
- The `State` enum and the API life cycle (app/api/include/api/sonicpi_api.h:352-358) are left out, for the same reason.
- The timer helpers (app/api/include/api/sonicpi_api.h:364-380) are left out: they read the clock.
- The OSC server thread and the `IAPIClient` callbacks are left out: they are concurrency and foreign calls.
- `ProcessedAudio` and the audio processor are left out: they are floating-point signal processing.
- The plain records and enums are left out. These are the path and port enums, `CueInfo`, the message, MIDI, status, version and buffer records, `APIProtocol` and `LogOption`. They carry no behaviour.
- `Preprocess` is `const` and takes its argument by reference. Both are modelled by value: the function receives the settings and returns the new text, so the settings cannot change. The in-place update of `code` is the returned value.
- `Preferences.Preprocess`: its properties are stated as lemmas about it (`Preferences.PreprocessIsHeader` and the `HeaderFacts` lemmas), not as an `ensures` on the function itself.
- Text is modelled as `string`, a sequence of characters, where `std::string` is a sequence of bytes. The source only concatenates, and the model splits only at '\n', so nothing depends on the difference. The lengths in `HeaderFacts.PreprocessKeepsCode` are counted in characters, not bytes.
- `Settings.defaultMidiChannel` is a C++ `int`. It is modelled as the subset type `Int32`, so no value outside 32 bits can occur. `std::to_string` is modelled by `Decimal.IntToString` on the whole range, which includes `INT_MIN`.
- The callers of `Preprocess` are not part of this model.
