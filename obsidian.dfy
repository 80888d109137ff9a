/**
 * The part of the host application's API the plugin touches: a note handle
 * and the vault's read/modify calls. The vault is a store from paths to
 * text plus a log of the effects the plugin caused, in order.
 */
module Obsidian {
  import opened Wrappers

  /** A note: its path and the path of its parent folder (`file.parent`, which may be null). */
  datatype TFile = TFile(path: string, parent: Option<string>)

  /** One visible effect of the plugin on the vault. */
  datatype Effect = Modified(path: string, text: string) | Moved(path: string, location: string)

  type Files = map<string, string>

  class Vault {
    var files: Files
    var log: seq<Effect>

    constructor (files: Files)
      ensures this.files == files && log == []
    {
      this.files := files;
      log := [];
    }

    /** `app.vault.read(file)`: rejects (None) when the note is not in the vault. */
    method Read(file: TFile) returns (content: Option<string>)
      ensures file.path in files <==> content.Some?
      ensures content.Some? ==> content.value == files[file.path]
    {
      if file.path in files {
        content := Some(files[file.path]);
      } else {
        content := None;
      }
    }

    /** `app.vault.modify(file, text)`: replaces the whole text of an existing note. */
    method Modify(file: TFile, text: string)
      requires file.path in files
      modifies this
      ensures files == old(files)[file.path := text]
      ensures log == old(log) + [Modified(file.path, text)]
    {
      files := files[file.path := text];
      log := log + [Modified(file.path, text)];
    }
  }
}
