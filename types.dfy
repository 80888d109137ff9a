/**
 * The plugin's record types (`EnhancedNoteSettings`, `RuleSet`, `NoteFrontmatter`).
 * TypeScript's `number` priority is modelled as an unbounded integer; the
 * literal union `0 | 1` of `automove` is a subset type.
 */
module Types {

  /** The TypeScript literal type `0 | 1`. */
  type Bit = n: int | 0 <= n <= 1

  datatype RuleSet = RuleSet(
    name: string,
    condition: string,
    targetFolder: string,
    tags: seq<string>,
    priority: int)

  datatype EnhancedNoteSettings = EnhancedNoteSettings(
    useCustomRules: bool,
    defaultFrontmatter: bool,
    ruleSets: seq<RuleSet>,
    templaterEnabled: bool)

  datatype NoteFrontmatter = NoteFrontmatter(
    folder: string,
    tags: seq<string>,
    automove: Bit,
    created: string,
    modified: string)
}
