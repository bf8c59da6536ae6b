/**
 What is known about one path on one replica: nothing there, or an entry with its metadata and,
 for a regular file, possibly the hash of its content.
 */
module Entries {
  import opened Wrappers

  datatype EntryKind = File | Dir | Symlink | Special

  datatype Entry = Entry(
    kind: EntryKind,
    size: Option<nat>,
    mtime: Option<int>,
    mode: Option<int>,
    linkTarget: Option<string>,
    hash: Option<string>,
    placeholder: bool)

  datatype State = Missing | Present(entry: Entry)

  predicate IsFile(s: State) {
    s.Present? && s.entry.kind.File?
  }

  predicate IsLink(s: State) {
    s.Present? && s.entry.kind.Symlink?
  }

  predicate FileWithoutHash(s: State) {
    IsFile(s) && s.entry.hash.None?
  }

  // The same content: kind plus content hash or link target.  Two regular files without a known
  // hash are never the same, nor are two special entries.
  predicate ContentEqual(a: State, b: State) {
    if a.Missing? || b.Missing? then a.Missing? && b.Missing?
    else if a.entry.kind != b.entry.kind then false
    else match a.entry.kind
      case File => a.entry.hash.Some? && a.entry.hash == b.entry.hash
      case Symlink => a.entry.linkTarget == b.entry.linkTarget
      case Dir => true
      case Special => false
  }

  predicate Plain(s: State) {
    s.Present? ==> !s.entry.placeholder
  }

  // Regular files with the same size, modification time and mode.
  predicate QuickEqual(a: State, b: State) {
    && IsFile(a) && IsFile(b)
    && a.entry.size == b.entry.size && a.entry.mtime == b.entry.mtime && a.entry.mode == b.entry.mode
  }

  // What a metadata-only observation of a state shows; a placeholder knows its hash without reading.
  function Metadata(s: State): State {
    if IsFile(s) && !s.entry.placeholder then Present(s.entry.(hash := None)) else s
  }

  // An observation with content: every regular file carries its hash.
  predicate Hashed(s: State) {
    IsFile(s) ==> s.entry.hash.Some?
  }
}
