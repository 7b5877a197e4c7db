# escapetest, modelled in Dafny

escapetest is a terminal capability demonstrator. It prints grids of SGR
(Select Graphic Rendition) escape sequences so a user can see what a terminal
supports: basic attributes, the sixteen foreground and background colours, the
256-colour palette and truecolor. The user picks sections by name. The alias
names `sgr_standard`, `sgr_color`, `sgr` and `all` stand for groups of the five
leaf sections `sgr_basic`, `sgr_fg`, `sgr_bg`, `sgr_256` and `sgr_rgb`.

The model covers the logic in `main.cpp`:

- `aliases.dfy` (module `Aliases`): `TestRunner::resolve_types`. A recursive
  method iterates over the input set in an unspecified order and calls the
  `expand_types` lambda. It is proved equal to a pure specification `Resolve`.
  Its termination measure is the alias depth. The lemmas prove closure,
  union, idempotence and the exact group contents.
- `output.dfy` (module `Output`): standard output as a trace of events, and
  the global `in_row` counter as class `Console`. This class models
  `row_check`, `print_sgr`, `wrap` and `print_label`.
- `trace.dfy` (module `Trace`): what a stretch of output shows once layout
  (captions, resets, line ends) is dropped. That is its headings, SGR
  samples, palette swatches and grids, in the order they were written, so
  the contracts say which samples fall under which heading.
- `runner.dfy` (module `Runner`): the section bodies as loops over a
  `Console`, the fixed section order of `main`, and class `TestRunner`. Its
  `Test` runs a section exactly when the section's name is in the resolved
  set.
- `color.dfy` (module `Color`): the sector if-chain of `hsv_to_rgb` on the
  integer degree `d = (int)h`, and `sgr_rgb_from_color` on integer channels.
  A parser is included so the round trip can be stated.
- `decimal.dfy`, `strings.dfy`, `wrappers.dfy`: these hold `std::to_string`
  of an `int` with its inverse, field splitting, and `Option`.
- `cli.dfy` (module `Cli`): how the argc/argv test string is chosen, an
  `istringstream` with its read position and eof flag, the splitting lambda
  as written (with fuel) and corrected, and the whole program.

The usage text (main.cpp:162) says the argument is a comma-separated list. The code as written never finishes
on such a list. The inner loop of the splitter stops in front of a `,` and
never consumes it, so the outer loop comes back to the same position forever.
`Cli.SplitTests` models the code as written. Its contract says that no amount
of fuel lets a string with a comma finish. The rest of the model uses the
corrected splitter (see "## Findings").

Other points worth knowing:

- `Hp = (int)h / 60.f` is compared exactly, with `d as real / 60.0`. For `d`
  in [0, 360], float rounding cannot move `d/60` across one of the integer
  sector bounds.
- The iteration order of `std::unordered_set` is modelled as an arbitrary
  choice (`:|`). The contracts hold for every order.

## Model

| member | source | states |
|---|---|---|
| Aliases.Expansion | main.cpp:135-138 | A name has an expansion exactly when it is one of the four alias keys. Every name in an expansion has strictly smaller alias depth than the key, so the table is acyclic and the recursion terminates. |
| Aliases.ExpandTypes | main.cpp:123-131 | It reports a match exactly when the name equals the key. On a match the output gains everything the key's expansion resolves to; otherwise the output is unchanged. |
| Aliases.ResolveTypes | main.cpp:119-142 | Whatever order the set is visited in, the result is `Resolve` of the input: the union over the input names of what each resolves to. |
| Aliases.ResolveInsert | main.cpp:133-140 | Handling one more input name adds exactly what that name resolves to. |
| Aliases.ResolveUnion | main.cpp:119-142 | The empty set resolves to the empty set, and resolution distributes over union. |
| Aliases.UnionOfClosures | main.cpp:135-138 | Each alias's leaf set is the union of the leaf sets of the names it expands to. |
| Aliases.ResolveTokenIsLeafClosure | main.cpp:133-141 | The recursive expansion of any name equals a hand-written table: `sgr_standard` gives {fg, bg}, `sgr_color` gives {fg, bg, 256, rgb}, `sgr` and `all` give all five leaves, and any other name gives itself. |
| Aliases.ResolveIsUnionOfLeafClosures | main.cpp:133-141 | A set resolves to the union of the table entries of its names. |
| Aliases.ResolveOneName | main.cpp:133-141 | A set holding a single name resolves to that name's table entry. |
| Aliases.ResolveAllGroup | main.cpp:137-138 | `{"all"}` and `{"sgr"}` each resolve to the five leaf tests. |
| Aliases.ResolveSgrMembers | main.cpp:137 | `{"sgr_basic", "sgr_color"}` resolves to the five leaf tests. |
| Aliases.ResolveColorGroups | main.cpp:135-136 | `{"sgr_color"}` resolves to {sgr_fg, sgr_bg, sgr_256, sgr_rgb}, and `{"sgr_standard"}` resolves to {sgr_fg, sgr_bg}. |
| Aliases.ResolveUnknownName | main.cpp:139 | An unknown name such as `bogus` passes through unchanged. |
| Aliases.ResolveTokenShape | main.cpp:133-141 | What one name resolves to contains no alias key. Each element is a leaf test or the name itself. |
| Aliases.ResolveShape | main.cpp:133-141 | No alias key is in the result. Each result element is a leaf test or a non-alias input name. |
| Aliases.ResolveKeepsPlainNames | main.cpp:139 | Every input name that is not an alias key is in the result. |
| Aliases.ResolveAliasFree | main.cpp:133-141 | A set with no alias key resolves to itself. |
| Aliases.ResolveIdempotent | main.cpp:119-142 | Resolving a resolved set changes nothing. |
| Output.Console.constructor | main.cpp:11 | The counter starts at 0 and nothing has been written yet. |
| Output.RowStep | main.cpp:13-22 | One row_check step: the next counter is always below 8. From a counter below 8 it is `(r + 1) % 8`, and a line end is due exactly when the next counter is 0. |
| Output.Console.RowCheck | main.cpp:13-22 | The counter moves to the next value, and a line end is written exactly when it reaches 8, which resets it to 0. Afterwards `in_row < 8`. |
| Output.RowChecksCount | main.cpp:13-22 | From a counter r < 8, k calls of row_check leave `(r + k) % 8` and end `(r + k) / 8` lines. |
| Output.RowChecksFromZero | main.cpp:13-22 | From 0, k calls leave `k % 8` and end `k / 8` lines. |
| Output.Console.PrintSgr | main.cpp:24-33 | The method writes one sample of the code, followed by a line end exactly when the row fills. The counter moves by one step of row_check. |
| Output.Console.Wrap | main.cpp:83-87 | It writes one line end and resets the counter to 0. |
| Output.Console.PrintLabel | main.cpp:89-93 | It writes two line ends, the heading, and two more line ends, then resets the counter to 0. |
| Runner.SampleRun | main.cpp:198-199 | A `for` loop of print_sgr over lo..hi-1 appends exactly the samples lo, lo+1, ..., hi-1, in order, and nothing else that is shown. |
| Runner.SwatchRun | main.cpp:227-230 | A `for` loop over lo..hi-1 appends exactly the swatches lo, ..., hi-1, in order, and leaves the counter unchanged. |
| Runner.BasicBody | main.cpp:197-203 | The section shows the samples 1..29 and then 50..75, in that order, and nothing else: no heading and no swatch. |
| Runner.StandardBody | main.cpp:205-223 | With base 30 or 40, the section shows exactly the samples base..base+7, base+9, base+60..base+67 and base+69, in that order. |
| Runner.BackgroundIsForegroundPlusTen | main.cpp:205-222 | The foreground and background sections each sample 18 codes, and each background code is the foreground code in the same place plus 10. |
| Runner.PaletteSystem | main.cpp:226-231 | The first palette row shows exactly the swatches 0..15, in order, and leaves the counter unchanged. |
| Runner.PaletteCubeRow | main.cpp:234-239 | Cube row s shows exactly the 36 swatches `16 + s*36 + t` for t = 0..35, in order. |
| Runner.PaletteBody | main.cpp:225-247 | The section shows exactly 256 swatches: the 16 system colours, the six cube rows `16 + s*36 + t`, and the grays 232..255. Together these are `0, 1, ..., 255` in increasing order, with nothing shown in between. The counter is left unchanged. |
| Runner.TrueColorBody | main.cpp:249-263 | The truecolor section writes exactly its grid and leaves the counter unchanged. |
| Runner.RunBody | main.cpp:197-263 | Each callback shows exactly its own samples, swatches or grid, in order, and no heading. |
| Runner.Selected | main.cpp:197-249 | A section is selected exactly when it is one of the listed sections and its name is in the set. |
| Runner.SelectedKeepsOrder | main.cpp:197-249 | The selected sections keep the fixed order `sgr_basic, sgr_fg, sgr_bg, sgr_256, sgr_rgb`. |
| Runner.Heading | main.cpp:106 | The heading is `label + " (" + type + ")"`: the title, then " (", the test name and ")", with length \|title\| + \|name\| + 3. |
| Runner.ExpectedIsShowsOfSelected | main.cpp:197-263 | Testing the sections one after another shows, in order, the part (heading, then body output) of each section whose name is in the set, and nothing for the rest. |
| Runner.ShowsHeadings | main.cpp:102-109 | The headings written by a run of sections are `title (name)` of those sections, in order; bodies add none. |
| Runner.EverySectionInOrder | main.cpp:197-263 | With every test selected, the output shows the basic heading and then its samples, the foreground heading and then its samples, the background heading and then its samples, the palette heading and then its 256 swatches, and the truecolor heading and then its grid. |
| Runner.TestRunner.constructor | main.cpp:98-99 | The runner keeps the resolved set of its input names. |
| Runner.TestRunner.Test | main.cpp:102-109 | When the name is in the resolved set, the method shows the heading `label (name)` and right after it the callback's output, and nothing else. Otherwise it writes nothing and leaves the counter unchanged. |
| Runner.TestRunner.RunSections | main.cpp:197-263 | The five calls to `test` together show, in the fixed order, each selected section's heading followed by exactly that section's output. |
| Color.SectorPattern | main.cpp:53-72 | rgb_p is left at its default exactly when the degree is outside [0, 360]; otherwise it is one of the six sector patterns. |
| Color.Sector | main.cpp:61-72 | The sector of degree d is 0 for d in [0, 60], and k for d in (60k, 60(k+1)]. |
| Color.ExactlyOneBranch | main.cpp:57-72 | For d in [0, 360], exactly one branch of the if-chain fires: that of `Sector(d)`. |
| Color.SectorPatternBySector | main.cpp:53-72 | For d in [0, 360], rgb_p gets the pattern of d's sector and is never left at its default. |
| Color.SectorBoundaries | main.cpp:53-72 | 0 and 60 give (C, X, 0), 61 gives (X, C, 0) and 360 gives (C, 0, X). Every degree below 0 or above 360 leaves rgb_p unset. |
| Color.PatternsArePermutations | main.cpp:61-72 | Each of the six patterns places C, X and 0 exactly once. |
| Color.TrueColorParam | main.cpp:78-81 | The parameter splits at ';' into exactly four fields: "2", then the `std::to_string` text of the red, green and blue channels. |
| Color.ParseTrueColorParamRoundTrip | main.cpp:78-81 | Parsing `"2;" + dec(r) + ";" + dec(g) + ";" + dec(b)` gives back (r, g, b) for any integers. |
| Color.TrueColorParamOfRed | main.cpp:78-81 | Channels (255, 0, 0) give `"2;255;0;0"`. |
| Decimal.NatToString | main.cpp:80 | The text is non-empty and all digits. It starts with '0' only when the value is 0. |
| Decimal.IntToString | main.cpp:80 | The text is non-empty and has no ';'. It is all digits exactly when the value is not negative. |
| Decimal.ParseIntToString | main.cpp:80 | Reading back the `std::to_string` text gives the integer again. |
| Cli.ChooseTests | main.cpp:152-176 | Usage is shown exactly for the single argument `--help`. No argument gives "all", one other argument gives itself, and any other count leaves the string empty. |
| Cli.StringStream.constructor | main.cpp:180 | The stream starts at position 0 with eof clear. |
| Cli.StringStream.Peek | main.cpp:186-187 | Before the end, peek gives the next character and does not move. At the end, or once eof is set, it gives nothing and sets eof. |
| Cli.StringStream.Ignore | main.cpp:190 | Before the end, ignore moves one character on. At the end it sets eof instead. |
| Cli.ReadName | main.cpp:184-191 | The inner loop reads the longest comma-free stretch from the current position. It then stands at the end with eof set, or in front of a ',' with eof clear. |
| Cli.SplitTests | main.cpp:178-195 | A comma-free string s gives {s} once the splitter has one pass of fuel. A string with a comma never finishes for any fuel: the position stays at the first comma, and from the second pass on only "" is added. |
| Cli.CommaListStalls | main.cpp:184-192 | On "a,b" the splitter as written never finishes. After two or more passes it holds {a, ""} and is stuck at position \|a\|. |
| Cli.SplitTestsCorrected | main.cpp:178-195 | With the comma consumed, the splitter always finishes and returns exactly the comma-separated fields of the string. |
| Cli.FieldSetWithoutComma | main.cpp:178-195 | A comma-free string names exactly itself. |
| Cli.FieldSetOfField | main.cpp:178-195 | A comma-free name followed by ',' and the rest names that name plus what the rest names. |
| Cli.FieldSetOfPair | main.cpp:178-195 | Two comma-free names joined by a comma give exactly those two names. |
| Cli.FieldSetOfList | main.cpp:162 | "sgr_fg,sgr_bg" names {sgr_fg, sgr_bg}. |
| Cli.NoArgumentRunsEverySection | main.cpp:153-154 | The default "all" selects all five sections, in order. |
| Cli.EmptyTestStringRunsNothing | main.cpp:197-249 | The set {""} selects no section. |
| Cli.ArgumentCountSelection | main.cpp:152-176 | No argument selects all five sections, in order. Two or more arguments select none. |
| Cli.RunProgram | main.cpp:144-267 | A non-terminal output writes nothing and exits 0. `--help` writes nothing to standard output and exits 1. Otherwise the program exits 0 and shows, in order, each section selected by the resolved names as its heading followed by exactly its output; a final line end closes the output. No argument shows every section; two or more show nothing. |

## Findings

| source | as written | input that shows it | evidently intended | confidence | as-written member | corrected member |
|---|---|---|---|---|---|---|
| main.cpp:184-192 | The inner loop breaks in front of ',' without consuming it. The outer `while(!iss.eof())` then re-reads the same position forever and inserts "" each pass. | the single argument `sgr_fg,sgr_bg` | Consume the ',' after a name, so each comma-separated name becomes one entry, as the usage text at main.cpp:162 says | not executed | Cli.CommaListStalls | Cli.SplitTestsCorrected |

## Left out

- Cli.RunProgram: uses the corrected splitter. The as-written splitter, which never finishes on a comma, is `Cli.SplitTests`.
- The `isatty(1)` check is a parameter of `Cli.RunProgram`. The messages on standard error and the usage text are not modelled; for those paths only the outcome and the exit status `Cli.ExitStatus` are.
- Exact output bytes are not modelled: the `setw` padding, `std::left`, the `": "` and `"test"` text around a sample, the escape bytes and the half-block glyph. Output is a trace of events (sample, swatch, caption text, heading, reset, line end).
- Output.Console.PrintLabel: the reset before the heading is folded into the heading event.
- The float arithmetic of `hsv_to_rgb` is not modelled (C, X via `fmod`/`abs`, m, and the scaling by 255). Only the integer sector choice is.
- The truecolor section's float sweep over hue and saturation (main.cpp:250-262) is one abstract `TrueColorGrid` event.
- Color.ParseTrueColorParamRoundTrip: takes integer channels. The float-to-int truncation inside `sgr_rgb_from_color` is not modelled.
- Output.Console.RowCheck: the `unsigned` wrap-around of `in_row` is not modelled, because the counter never exceeds 8.
- The iteration order of `std::unordered_set` is an arbitrary choice. Results are sets, so it does not matter.
