/**
 * `EnhancedAutoMover`: the per-note pipeline run when a note is created.
 * Ensure a default header exists, ask whether the note is to be processed,
 * resolve a location and move the note there.
 *
 * The plugin members that the code calls but does not define
 * (`getFrontmatter`, `shouldProcessNote`, `processCustomRules`,
 * `processDefaultRules`, `moveNote`) are uninterpreted: they are the
 * fields of `Helpers`, and each sees the settings and the vault's files as
 * they are when it is called. The sixth undefined member,
 * `this.updateFrontmatter(file, data)`, is taken to delegate to
 * `FrontmatterProcessor.updateFrontmatter(this.app, file, data)`. The two
 * `new Date().toISOString()` readings are parameters.
 */
module Plugin {
  import opened Wrappers
  import opened Types
  import opened Obsidian
  import opened FrontmatterProcessor

  /** Obsidian's parsed header of a note; the code shown only tests whether it exists. */
  type FrontMatterCache = map<string, string>

  /**
   * The plugin's own members that the code calls but does not define. As
   * `this.` members they may read the settings and the vault, so each
   * receives both; `shouldProcessNote` is not given the note.
   */
  datatype Helpers = Helpers(
    getFrontmatter: (EnhancedNoteSettings, Files, TFile) -> Option<FrontMatterCache>,
    shouldProcessNote: (EnhancedNoteSettings, Files, Option<FrontMatterCache>) -> bool,
    processCustomRules: (EnhancedNoteSettings, Files, TFile) -> Option<string>,
    processDefaultRules: (EnhancedNoteSettings, Files, TFile) -> Option<string>,
    moveNote: (EnhancedNoteSettings, Files, TFile, string) -> Files)

  /** How the `processNote` promise settles: `Rejected` when writing the default header throws. */
  datatype Outcome = Completed | Rejected

  /** The outcome, the vault's files afterwards and the effects, in order. */
  datatype Run = Run(outcome: Outcome, files: Files, effects: seq<Effect>)

  /** The vault's files after a step that completed, and its effects. */
  datatype Step = Step(files: Files, effects: seq<Effect>)

  /** The record `createDefaultFrontmatter` builds from the parent path and two clock readings. */
  function DefaultFrontmatter(parentPath: string, created: string, modified: string): NoteFrontmatter
  {
    NoteFrontmatter(parentPath, [], 1, created, modified)
  }

  /** JavaScript truthiness of a `string | null`: present and not empty. */
  predicate Truthy(location: Option<string>)
  {
    location.Some? && location.value != ""
  }

  /**
   * `determineLocation`: the custom rules when `useCustomRules` is set,
   * the default rules otherwise.
   */
  function Location(settings: EnhancedNoteSettings, helpers: Helpers, files: Files, file: TFile): Option<string>
  {
    if settings.useCustomRules then helpers.processCustomRules(settings, files, file)
    else helpers.processDefaultRules(settings, files, file)
  }

  /**
   * `createDefaultFrontmatter`: None when it throws (no parent folder, or
   * the note cannot be read), else the files and the one write.
   */
  function DefaultWrite(files: Files, file: TFile, created: string, modified: string): Option<Step>
  {
    if file.parent.None? || file.path !in files then None
    else
      var fm := DefaultFrontmatter(file.parent.value, created, modified);
      var text := UpdatedText(files[file.path], GenerateYaml(fm));
      Some(Step(files[file.path := text], [Modified(file.path, text)]))
  }

  /** The header step of `processNote`: nothing to do when a header exists, else `createDefaultFrontmatter`. */
  function Ensured(settings: EnhancedNoteSettings, helpers: Helpers, files: Files, file: TFile, created: string, modified: string): Option<Step>
  {
    if helpers.getFrontmatter(settings, files, file).Some? then Some(Step(files, []))
    else DefaultWrite(files, file, created, modified)
  }

  /** `processNote` as a function of the vault's files and the clock readings. */
  function ProcessNoteRun(settings: EnhancedNoteSettings, helpers: Helpers, files: Files, file: TFile,
                          created: string, modified: string): Run
  {
    var frontmatter := helpers.getFrontmatter(settings, files, file);
    match Ensured(settings, helpers, files, file, created, modified)
    case None => Run(Rejected, files, [])
    case Some(Step(files1, effects1)) =>
      if helpers.shouldProcessNote(settings, files1, frontmatter) then
        var location := Location(settings, helpers, files1, file);
        if Truthy(location) then
          Run(Completed, helpers.moveNote(settings, files1, file, location.value), effects1 + [Moved(file.path, location.value)])
        else Run(Completed, files1, effects1)
      else Run(Completed, files1, effects1)
  }

  class EnhancedAutoMover {
    var settings: EnhancedNoteSettings
    const vault: Vault
    const helpers: Helpers

    constructor (settings: EnhancedNoteSettings, vault: Vault, helpers: Helpers)
      ensures this.settings == settings && this.vault == vault && this.helpers == helpers
    {
      this.settings := settings;
      this.vault := vault;
      this.helpers := helpers;
    }

    method ProcessNote(file: TFile, created: string, modified: string) returns (outcome: Outcome)
      modifies vault
      ensures var r := ProcessNoteRun(settings, helpers, old(vault.files), file, created, modified);
        outcome == r.outcome && vault.files == r.files && vault.log == old(vault.log) + r.effects
    {
      var frontmatter := helpers.getFrontmatter(settings, vault.files, file);
      if frontmatter.None? {
        var ok := CreateDefaultFrontmatter(file, created, modified);
        if !ok {
          return Rejected;
        }
      }
      if helpers.shouldProcessNote(settings, vault.files, frontmatter) {
        var newLocation := DetermineLocation(file);
        if Truthy(newLocation) {
          MoveNote(file, newLocation.value);
        }
      }
      outcome := Completed;
    }

    method CreateDefaultFrontmatter(file: TFile, created: string, modified: string) returns (ok: bool)
      modifies vault
      ensures var w := DefaultWrite(old(vault.files), file, created, modified);
        ok == w.Some? &&
        (ok ==> vault.files == w.value.files && vault.log == old(vault.log) + w.value.effects) &&
        (!ok ==> vault.files == old(vault.files) && vault.log == old(vault.log))
    {
      if file.parent.None? {
        return false;
      }
      var defaultFm := DefaultFrontmatter(file.parent.value, created, modified);
      ok := UpdateFrontmatter(vault, file, defaultFm);
    }

    method DetermineLocation(file: TFile) returns (location: Option<string>)
      ensures settings.useCustomRules ==> location == helpers.processCustomRules(settings, vault.files, file)
      ensures !settings.useCustomRules ==> location == helpers.processDefaultRules(settings, vault.files, file)
      ensures location == Location(settings, helpers, vault.files, file)
    {
      if settings.useCustomRules {
        return helpers.processCustomRules(settings, vault.files, file);
      }
      return helpers.processDefaultRules(settings, vault.files, file);
    }

    method MoveNote(file: TFile, location: string)
      modifies vault
      ensures vault.files == helpers.moveNote(settings, old(vault.files), file, location)
      ensures vault.log == old(vault.log) + [Moved(file.path, location)]
    {
      vault.files := helpers.moveNote(settings, vault.files, file, location);
      vault.log := vault.log + [Moved(file.path, location)];
    }
  }

  // ---------------------------------------------------------------------
  // Properties of the pipeline

  /**
   * The default header is written exactly when `getFrontmatter` found
   * nothing (and the write can happen at all); it is then the first effect
   * and holds the record built from the parent path and the clock readings.
   */
  lemma DefaultWrittenIffAbsent(settings: EnhancedNoteSettings, helpers: Helpers, files: Files, file: TFile,
                                created: string, modified: string)
    ensures var r := ProcessNoteRun(settings, helpers, files, file, created, modified);
      (exists i :: 0 <= i < |r.effects| && r.effects[i].Modified?) <==>
        (helpers.getFrontmatter(settings, files, file).None? && file.parent.Some? && file.path in files)
    ensures var r := ProcessNoteRun(settings, helpers, files, file, created, modified);
      helpers.getFrontmatter(settings, files, file).None? && file.parent.Some? && file.path in files ==>
        r.effects[0] == Modified(file.path,
          UpdatedText(files[file.path], GenerateYaml(DefaultFrontmatter(file.parent.value, created, modified))))
  {
    var r := ProcessNoteRun(settings, helpers, files, file, created, modified);
    var e := Ensured(settings, helpers, files, file, created, modified);
    if e.Some? {
      var before := e.value.effects;
      var location := Location(settings, helpers, e.value.files, file);
      if helpers.shouldProcessNote(settings, e.value.files, helpers.getFrontmatter(settings, files, file)) && Truthy(location) {
        assert r.effects == before + [Moved(file.path, location.value)];
      } else {
        assert r.effects == before;
      }
      if helpers.getFrontmatter(settings, files, file).Some? {
        assert before == [];
        assert forall i :: 0 <= i < |r.effects| ==> r.effects[i].Moved?;
      } else {
        assert r.effects[0] == before[0] && before[0].Modified?;
      }
    }
  }

  /**
   * At most one move, always the last effect, and it happens exactly when
   * `shouldProcessNote` accepted the ORIGINAL header result and
   * `determineLocation`, asked after the header step, gave a non-empty location.
   */
  lemma MoveAtMostOnce(settings: EnhancedNoteSettings, helpers: Helpers, files: Files, file: TFile,
                       created: string, modified: string)
    ensures var r := ProcessNoteRun(settings, helpers, files, file, created, modified);
      |r.effects| <= 2 &&
      forall i :: 0 <= i < |r.effects| && r.effects[i].Moved? ==> i == |r.effects| - 1
    ensures var r := ProcessNoteRun(settings, helpers, files, file, created, modified);
      var e := Ensured(settings, helpers, files, file, created, modified);
      (exists i :: 0 <= i < |r.effects| && r.effects[i].Moved?) <==>
        (e.Some? && helpers.shouldProcessNote(settings, e.value.files, helpers.getFrontmatter(settings, files, file)) &&
         Truthy(Location(settings, helpers, e.value.files, file)))
  {
    var r := ProcessNoteRun(settings, helpers, files, file, created, modified);
    var e := Ensured(settings, helpers, files, file, created, modified);
    if e.Some? {
      var before := e.value.effects;
      assert forall i :: 0 <= i < |before| ==> before[i].Modified?;
      var location := Location(settings, helpers, e.value.files, file);
      if helpers.shouldProcessNote(settings, e.value.files, helpers.getFrontmatter(settings, files, file)) && Truthy(location) {
        assert r.effects == before + [Moved(file.path, location.value)];
        assert r.effects[|before|].Moved?;
      } else {
        assert r.effects == before;
      }
    }
  }

  /**
   * For a note without a header, the decision to move it is taken on the
   * absent header, not on the default record (with `automove: 1`) just
   * written: with `shouldProcessNote(null)` false the note stays put.
   */
  lemma EligibilityUsesOriginalFrontmatter(settings: EnhancedNoteSettings, helpers: Helpers, files: Files,
                                           file: TFile, created: string, modified: string)
    requires helpers.getFrontmatter(settings, files, file).None? && file.parent.Some? && file.path in files
    requires !helpers.shouldProcessNote(settings, DefaultWrite(files, file, created, modified).value.files, None)
    ensures var r := ProcessNoteRun(settings, helpers, files, file, created, modified);
      var fm := DefaultFrontmatter(file.parent.value, created, modified);
      fm.automove == 1 && r.outcome == Completed &&
      r.effects == [Modified(file.path, UpdatedText(files[file.path], GenerateYaml(fm)))]
  {
  }

  /**
   * The promise rejects exactly when the default header had to be written
   * and could not be; then nothing at all has happened.
   */
  lemma RejectedIffDefaultFails(settings: EnhancedNoteSettings, helpers: Helpers, files: Files, file: TFile,
                                created: string, modified: string)
    ensures var r := ProcessNoteRun(settings, helpers, files, file, created, modified);
      r.outcome == Rejected <==>
        helpers.getFrontmatter(settings, files, file).None? && (file.parent.None? || file.path !in files)
    ensures var r := ProcessNoteRun(settings, helpers, files, file, created, modified);
      r.outcome == Rejected ==> r.files == files && r.effects == []
  {
  }

  /**
   * `h1` and `h2` answer alike for `file` under `settings` in every member
   * other than the two rule resolvers.
   */
  ghost predicate AgreeBesideRules(settings: EnhancedNoteSettings, h1: Helpers, h2: Helpers, file: TFile)
  {
    (forall f :: h1.getFrontmatter(settings, f, file) == h2.getFrontmatter(settings, f, file)) &&
    (forall f, o :: h1.shouldProcessNote(settings, f, o) == h2.shouldProcessNote(settings, f, o)) &&
    (forall f, loc :: h1.moveNote(settings, f, file, loc) == h2.moveNote(settings, f, file, loc))
  }

  /**
   * `determineLocation` consults only the resolver that `useCustomRules`
   * selects: whatever the other one would answer, the run is the same.
   */
  lemma OnlyChosenRulesConsulted(settings: EnhancedNoteSettings, h1: Helpers, h2: Helpers, files: Files,
                                 file: TFile, created: string, modified: string)
    requires AgreeBesideRules(settings, h1, h2, file)
    requires settings.useCustomRules ==>
      forall f :: h1.processCustomRules(settings, f, file) == h2.processCustomRules(settings, f, file)
    requires !settings.useCustomRules ==>
      forall f :: h1.processDefaultRules(settings, f, file) == h2.processDefaultRules(settings, f, file)
    ensures ProcessNoteRun(settings, h1, files, file, created, modified) ==
            ProcessNoteRun(settings, h2, files, file, created, modified)
  {
  }

  /** The plugin's members give the same answers for `file` under `s1` as under `s2`. */
  ghost predicate SameAnswers(helpers: Helpers, s1: EnhancedNoteSettings, s2: EnhancedNoteSettings, file: TFile)
  {
    (forall f :: helpers.getFrontmatter(s1, f, file) == helpers.getFrontmatter(s2, f, file)) &&
    (forall f, o :: helpers.shouldProcessNote(s1, f, o) == helpers.shouldProcessNote(s2, f, o)) &&
    (forall f :: helpers.processCustomRules(s1, f, file) == helpers.processCustomRules(s2, f, file)) &&
    (forall f :: helpers.processDefaultRules(s1, f, file) == helpers.processDefaultRules(s2, f, file)) &&
    (forall f, loc :: helpers.moveNote(s1, f, file, loc) == helpers.moveNote(s2, f, file, loc))
  }

  /**
   * `processNote`, `createDefaultFrontmatter` and `determineLocation`
   * themselves branch only on `useCustomRules`: for two settings that agree
   * on it, and on which the undefined members answer alike, the runs are
   * equal. (Those members may read any setting, `ruleSets` included.)
   */
  lemma ShownCodeReadsOnlyUseCustomRules(s1: EnhancedNoteSettings, s2: EnhancedNoteSettings, helpers: Helpers,
                                         files: Files, file: TFile, created: string, modified: string)
    requires s1.useCustomRules == s2.useCustomRules
    requires SameAnswers(helpers, s1, s2, file)
    ensures ProcessNoteRun(s1, helpers, files, file, created, modified) ==
            ProcessNoteRun(s2, helpers, files, file, created, modified)
  {
  }

  /**
   * The default record prints as: folder is the parent path, no tags,
   * automove 1, and the two clock readings as created and modified.
   */
  lemma DefaultHeaderText(parentPath: string, created: string, modified: string)
    ensures GenerateYaml(DefaultFrontmatter(parentPath, created, modified)) ==
      ("folder: \"" + parentPath + "\"") + "\n" + "tags: []" + "\n" + "automove: 1" + "\n" +
      ("created: \"" + created + "\"") + "\n" + ("modified: \"" + modified + "\"")
  {
    var d := DefaultFrontmatter(parentPath, created, modified);
    YamlText(d);
    assert "tags: [" + Text.Join(d.tags, ", ") + "]" == "tags: []";
    assert "automove: " + AutomoveText(d.automove) == "automove: 1";
  }
}
