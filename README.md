# Auto note mover: frontmatter writer and per-note pipeline

This project models the core of an Obsidian plugin that files newly created
notes into folders. When a note is created, the plugin does four things in order:

1. It makes sure the note has a YAML header ("frontmatter"). If it has none, it writes a default one.
2. It asks whether the note is to be processed.
3. It resolves a target location from either custom or default rules.
4. It moves the note there.

The header writer turns a `NoteFrontmatter` record into five
`key: value` lines. The writer then strips the note's leading block, meaning the
shortest prefix matched by `/^---\n.*?\n---\n/s`, and puts the new header
in front of what remains.

Modules, in dependency order:

- `Wrappers`: `Option`, for `null` results.
- `Types`: the records `RuleSet`, `EnhancedNoteSettings` and `NoteFrontmatter` (`automove` is the subset type `Bit` for `0 | 1`).
- `Text`: `Join`, which is `Array.prototype.join`, and a splitter `SplitOn` that is used as its inverse.
- `Obsidian`: the host API the plugin touches. It has `TFile` and a `Vault` class whose fields are the notes' texts (`files`) and the ordered log of effects (`log`).
- `FrontmatterProcessor`:
  - `GenerateYaml`;
  - a reference reader `ReadYaml`;
  - the block scanner (`FindClose`, `BlockEnd`, `Strip`);
  - `NewContent` (strip with the `|| content` fallback) and `UpdatedText`;
  - the state-changing `UpdateFrontmatter`.
- `Plugin`:
  - the `EnhancedAutoMover` class with `ProcessNote`, `CreateDefaultFrontmatter`, `DetermineLocation` and `MoveNote`;
  - the pure function `ProcessNoteRun` that specifies `ProcessNote`;
  - lemmas about `ProcessNoteRun`.

The plugin members that the code calls but does not define are kept
uninterpreted: `getFrontmatter`, `shouldProcessNote`, `processCustomRules`,
`processDefaultRules` and `moveNote`. They are arrow-typed fields of
`Plugin.Helpers`. Being members of the plugin, each may read the settings, so
each receives them. Each also receives the vault's files as they are at the
moment it is called. `shouldProcessNote` gets the frontmatter result instead
of the note. A sixth undefined member is called too: `createDefaultFrontmatter`
calls `this.updateFrontmatter(file, defaultFm)` (type.ts:70), but the plugin
class defines no such member. The model takes that call to delegate to
`FrontmatterProcessor.updateFrontmatter(this.app, file, data)` (type.ts:113).
The two `new Date().toISOString()` readings are parameters (`created`,
`modified`).

The scanner states the regular expression precisely. `MatchesBlock(p)` says that
`p == "---\n" + s + "\n---\n"` for some `s`, where `s` may be any text.
`BlockEnd` finds the shortest prefix with that property. It does this by
looking for `---\n` at index 0 and then the first `\n---\n` that starts at
index 4 or later. So `---\n\n---\n` is a block and `---\n---\n` is not.
JavaScript truthiness is written out: `if (!frontmatter)` tests for `None`,
and `if (newLocation)` requires a present, non-empty string.

## Behaviour a reader might not expect

A plugin of this kind would be expected to keep unknown header keys, to
replace its own header on a rewrite, to gate the move on `automove`, and to
honour the `defaultFrontmatter` toggle. The code shown does none of these
itself, and what its undefined members do is not known:

- **Unknown keys.** The whole leading block is stripped, and only the five known keys are written back.
- **Not idempotent.** `generateYaml` ends without a newline, so the closing `---` lands on the `modified:` line. What a second write does depends on the body left after the first write. The proofs assume no value has a line break.
  - **The body has no `\n---\n` and does not start with `---\n`.** The strip pattern does not recognise the plugin's own output (`OwnOutputNotRecognised`). A second write stacks a new header above the old one (`RewriteStacksBlocks`). A third write removes everything up to the older header's opening marker (`ThirdWriteSplices`). That drops the second header and leaves the first header's lines in the body without an opening marker.
  - **The body contains a marker line, such as a Markdown rule `a\n---\nrest`.** The second write's lazy match ends at the body's first `---` line. It removes the old header and the text `a` above that line, leaving `rest` (`SecondWriteCutsAtRule`).
  - **The body starts with `---\n` and more text follows.** The second write replaces the old header and drops that marker line (`StackedStrip`).
- **`automove`.** The code shown never reads the flag it writes. Only `shouldProcessNote`, which sees the frontmatter result, could read it.
- **Eligibility.** The code passes the *original*, possibly absent, result of `getFrontmatter` to `shouldProcessNote`, not the default record it has just written (`EligibilityUsesOriginalFrontmatter`).
- **`settings.defaultFrontmatter`.** `processNote`, `createDefaultFrontmatter` and `determineLocation` branch on `useCustomRules` and on no other setting (`ShownCodeReadsOnlyUseCustomRules`). The default header is written whatever the toggle says, unless one of the undefined members reads the toggle.
- **Tags.** The only tags the code shown writes are the empty list of the default record. Whether `moveNote` rewrites the header is not known, and the model lets it change the files arbitrarily.
- **Quoting.** Values are quoted but not escaped. A tag `a, b` prints like the two tags `a` and `b` (`TagsNotEscaped`).

## Model

| member | source | states |
|---|---|---|
| FrontmatterProcessor.FiveLines | type.ts:120-127 | when no value holds a line break, the header splits into exactly five lines in the order folder, tags, automove, created, modified; strings are quoted verbatim, tags are `[`…`]` joined by `, `, automove is a bare `0`/`1` |
| FrontmatterProcessor.EndsWithModifiedLine | type.ts:126-127 | the header ends with the `modified: "…"` line, preceded by a newline and with no trailing newline |
| FrontmatterProcessor.TagsRoundTrip | type.ts:123 | the tags line keeps every tag in its original order; the empty list prints as `tags: []` |
| FrontmatterProcessor.TagsNotEscaped | type.ts:123 | two different tag lists can print the same tags line, because commas inside tags are not escaped |
| FrontmatterProcessor.YamlRoundTrip | type.ts:120-128 | a record with no line breaks, no comma in a tag and not the single empty tag is read back exactly from its header |
| FrontmatterProcessor.YamlInjective | type.ts:120-128 | distinct such records get distinct headers |
| Text.SplitJoin | type.ts:127 | joining a non-empty list by a separator whose first character no element contains, then splitting, gives the list back in order |
| FrontmatterProcessor.BlockShape | type.ts:116 | a text matches `---\n`, any text, `\n---\n` exactly when it has at least 9 characters, starts with `---\n` and ends with `\n---\n` |
| FrontmatterProcessor.FindClose | type.ts:116 | the scanner returns the first index at or after `from` where `\n---\n` begins, or reports that there is none |
| FrontmatterProcessor.BlockEnd | type.ts:116 | the length of the shortest prefix that the strip pattern matches, or none when no prefix matches |
| FrontmatterProcessor.Strip | type.ts:116 | the result is a suffix of the input; without a match it is the input; otherwise exactly the shortest matched prefix is removed |
| FrontmatterProcessor.StripFirstBlock | type.ts:116 | with two blocks at the head, only the first is removed |
| FrontmatterProcessor.NewContent | type.ts:116 | the body is a suffix of the note; it is the stripped text, or the whole original block when stripping leaves nothing; it is empty only for an empty note |
| FrontmatterProcessor.WrittenLayout | type.ts:115-117 | the written note starts with `---\n` and ends with `\nmodified: "…"---\n` followed by the body: the closing marker shares the `modified` line |
| FrontmatterProcessor.OwnOutputNotRecognised | type.ts:116-127 | when no value has a line break, and the body neither contains `\n---\n` nor starts with `---\n`, the strip pattern does not match the plugin's own output |
| FrontmatterProcessor.RewriteStacksBlocks | type.ts:113-118 | under the same conditions, a second write puts a new header above the previous output and leaves the previous output whole |
| FrontmatterProcessor.ThirdWriteSplices | type.ts:113-118 | under the same conditions, a third write keeps as body the first header's lines followed by `---\n` and the original body, and drops the second header |
| FrontmatterProcessor.SecondWriteCutsAtRule | type.ts:113-118 | a note `a\n---\nrest` (one line `a` not starting with `-`, non-empty `rest`) is kept whole by the first write; the second write's body is just `rest`, so the old header and the line `a` are lost |
| FrontmatterProcessor.StackedStrip | type.ts:116 | when the plugin's output has a body that starts with `---\n`, the strip removes the header and that marker line, and nothing more |
| FrontmatterProcessor.UpdateFrontmatter | type.ts:113-118 | on a readable note, writes exactly `---\n` + header + `---\n` + body and logs one write; on a note missing from the vault, changes nothing |
| Obsidian.Vault.Read | type.ts:114 | the read succeeds exactly for a note in the vault and returns its text |
| Obsidian.Vault.Modify | type.ts:117 | replaces that note's text, changes no other note and logs the write |
| Plugin.OnlyChosenRulesConsulted | type.ts:73-78 | only the resolver that `useCustomRules` selects is consulted: two sets of helpers that agree on everything except the resolver not selected give the same run |
| Plugin.EnhancedAutoMover.DetermineLocation | type.ts:73-78 | the result is the custom rules' answer when `useCustomRules` is set and the default rules' answer otherwise, each asked about the vault as it is at the call |
| Plugin.EnhancedAutoMover.CreateDefaultFrontmatter | type.ts:61-71 | fails with no effect when there is no parent folder or the note is missing; otherwise writes the default record's header |
| Plugin.EnhancedAutoMover.MoveNote | type.ts:56 | applies the uninterpreted `moveNote` to the files and logs one move |
| Plugin.EnhancedAutoMover.ProcessNote | type.ts:46-58 | the outcome, the files afterwards and the effects appended to the log are those of `ProcessNoteRun` |
| Plugin.DefaultHeaderText | type.ts:62-68 | the default header text: folder is the parent path, `tags: []`, `automove: 1`, and the two clock readings as created and modified |
| Plugin.DefaultWrittenIffAbsent | type.ts:47-51 | a header write happens exactly when `getFrontmatter` returned nothing (and the write is possible); it is the first effect and holds the default record |
| Plugin.MoveAtMostOnce | type.ts:53-57 | at most two effects and at most one move, always the last; a move happens exactly when `shouldProcessNote(original frontmatter)` holds and the location is a non-empty string |
| Plugin.EligibilityUsesOriginalFrontmatter | type.ts:47-53 | for a note without a header, `shouldProcessNote` is asked about `null`, not about the record just written; if it answers false, the default header (`automove: 1`) is written and the note is not moved |
| Plugin.RejectedIffDefaultFails | type.ts:49-50 | `processNote` rejects exactly when the default header is needed but cannot be written; it has then changed nothing |
| Plugin.ShownCodeReadsOnlyUseCustomRules | type.ts:46-78 | the code shown branches only on `useCustomRules`: two settings that agree on it, and on which the undefined members answer alike, give the same run |

## Left out

- Plugin lifecycle (`onload`, `loadSettings`, registration of the vault `create` event, type.ts:31-44): this is host event plumbing. The model starts at the `processNote` call.
- The settings tab and its toggle callbacks (type.ts:84-109): this is UI whose only effect is to set settings fields and save them.
- The bodies of `getFrontmatter`, `shouldProcessNote`, `processCustomRules`, `processDefaultRules` and `moveNote`: the code does not define them, so they are uninterpreted functions. In particular, no rule evaluation, rule priority or tag union is modelled.
- Failures of the undefined members: `getFrontmatter`, `shouldProcessNote`, `processCustomRules`, `processDefaultRules` and `moveNote` are taken never to throw. They are modelled as total functions.
- Timing of the undefined members: `getFrontmatter` and `shouldProcessNote` are not awaited (type.ts:47, 53), so they are taken to be synchronous.
- The clock: `new Date().toISOString()` is two string parameters. ISO-8601 formatting and the order of the two readings are not checked.
- Asynchrony and concurrency: each `await` is taken to run to completion in order, and no other actor touches the vault or the settings between calls (the settings tab, type.ts:94-96, could change `useCustomRules` during the `await` at type.ts:50). The code has no locking.
- `Obsidian.Vault.Modify`: requires the note to still exist. `updateFrontmatter` only calls it right after a successful read, and the model has no other actor, so a rejected `modify` is not modelled.
- Characters are Dafny `char`s, not UTF-16 code units. Only `\n` is a line break for the strip pattern, as in the code, so CRLF notes never match.
- `RuleSet.priority` is a TypeScript `number` (floating point). It is modelled as an unbounded integer and never read.
- `templaterEnabled` (type.ts:6) is a flag with no behaviour here.
