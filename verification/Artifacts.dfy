/** The artifact walk, its printed names, and the descriptor-bound read of a printed name. */
module Artifacts {

  import opened Models
  import opened Text

  type Bytes = seq<bv8>
  type Path = seq<string>

  /** A directory tree that does not change: a name is bound to one entry. */
  datatype Node =
    | File(content: Bytes)
    | Symlink
    | Special
    | Directory(entries: map<string, Node>)

  /** What the file system admits as an entry name. */
  predicate EntryName(name: string) {
    name != "" && name != "." && name != ".." && '/' !in name
  }

  predicate Legal(n: Node)
    decreases n
  {
    n.Directory? ==> forall name | name in n.entries :: EntryName(name) && Legal(n.entries[name])
  }

  /** The node at the end of a path, never through a symbolic link. */
  function Lookup(n: Node, path: Path): Option<Node>
    decreases |path|
  {
    if path == [] then Some(n)
    else if n.Directory? && path[0] in n.entries then Lookup(n.entries[path[0]], path[1..])
    else None
  }

  predicate RegularAt(n: Node, path: Path) {
    Lookup(n, path).Some? && Lookup(n, path).value.File?
  }

  // -------------------------------------------------------------- order

  /** Order by the first component that differs. */
  predicate Before(p: Path, q: Path) {
    q != [] && (p == [] || Less(p[0], q[0]) || (p[0] == q[0] && Before(p[1..], q[1..])))
  }

  predicate Ordered(paths: seq<Path>) {
    forall i, j :: 0 <= i < j < |paths| ==> Before(paths[i], paths[j])
  }

  lemma {:induction false} NeverBeforeItself(p: Path)
    ensures !Before(p, p)
  {
    if p != [] {
      Irreflexive(p[0]);
      NeverBeforeItself(p[1..]);
    }
  }

  lemma OrderedHasNoDuplicates(paths: seq<Path>, i: nat, j: nat)
    requires Ordered(paths) && i < j < |paths|
    ensures paths[i] != paths[j]
  {
    NeverBeforeItself(paths[i]);
  }

  lemma {:induction false} CommonPrefix(prefix: Path, p: Path, q: Path)
    ensures Before(prefix + p, prefix + q) <==> Before(p, q)
  {
    if prefix == [] {
      assert prefix + p == p && prefix + q == q;
    } else {
      assert (prefix + p)[1..] == prefix[1..] + p && (prefix + q)[1..] == prefix[1..] + q;
      Irreflexive(prefix[0]);
      CommonPrefix(prefix[1..], p, q);
    }
  }

  // --------------------------------------------------------------- walk

  predicate Increasing(names: seq<string>) {
    forall i, j :: 0 <= i < j < |names| ==> Less(names[i], names[j])
  }

  /** sorted(entries) by name: the scan yields the entries in any order. */
  method SortedNames(names: set<string>) returns (sorted: seq<string>)
    ensures Increasing(sorted)
    ensures forall name :: name in sorted <==> name in names
  {
    sorted := [];
    var pending := names;
    while pending != {}
      invariant Increasing(sorted)
      invariant pending <= names
      invariant forall name :: name in sorted <==> name in names - pending
      decreases pending
    {
      var name :| name in pending;
      sorted := Insert(sorted, name);
      pending := pending - {name};
    }
  }

  method Insert(sorted: seq<string>, name: string) returns (r: seq<string>)
    requires Increasing(sorted) && name !in sorted
    ensures Increasing(r)
    ensures forall n :: n in r <==> n in sorted || n == name
  {
    var k := 0;
    while k < |sorted| && Less(sorted[k], name)
      invariant 0 <= k <= |sorted|
      invariant forall i :: 0 <= i < k ==> Less(sorted[i], name)
    {
      k := k + 1;
    }
    forall i | k <= i < |sorted| ensures Less(name, sorted[i]) {
      LessTotal(name, sorted[k]);
      if k < i {
        LessTransitive(name, sorted[k], sorted[i]);
      }
    }
    r := sorted[..k] + [name] + sorted[k..];
  }

  /** p is the prefix and then a path to a regular file of n. */
  predicate Under(n: Node, prefix: Path, p: Path) {
    prefix <= p && RegularAt(n, p[|prefix|..])
  }

  /** The files below some of a directory's names, in order. */
  ghost predicate Walked(n: Node, names: seq<string>, prefix: Path, found: seq<Path>) {
    && Ordered(found)
    && forall p :: p in found <==> prefix < p && p[|prefix|] in names && Under(n, prefix, p)
  }

  lemma EarlierName(prefix: Path, p: Path, q: Path)
    requires prefix < p && prefix < q && Less(p[|prefix|], q[|prefix|])
    ensures Before(p, q)
  {
    assert p == prefix + p[|prefix|..] && q == prefix + q[|prefix|..];
    CommonPrefix(prefix, p[|prefix|..], q[|prefix|..]);
  }

  lemma UnderName(n: Node, name: string, prefix: Path, p: Path)
    requires n.Directory? && name in n.entries && prefix < p
    ensures p[|prefix|] == name && Under(n, prefix, p) <==> Under(n.entries[name], prefix + [name], p)
  {
  }

  /** Appending the files below the next name keeps the order and adds exactly those files. */
  lemma WalkNext(n: Node, names: seq<string>, k: nat, prefix: Path, found: seq<Path>, below: seq<Path>)
    requires n.Directory? && Increasing(names) && k < |names| && names[k] in n.entries
    requires Walked(n, names[..k], prefix, found)
    requires Ordered(below)
    requires forall p :: p in below <==> Under(n.entries[names[k]], prefix + [names[k]], p)
    ensures Walked(n, names[..k + 1], prefix, found + below)
  {
    var name := names[k];
    forall p
      ensures p in found + below <==> prefix < p && p[|prefix|] in names[..k + 1] && Under(n, prefix, p)
    {
      if prefix < p {
        UnderName(n, name, prefix, p);
        assert p[|prefix|] in names[..k + 1] <==> p[|prefix|] in names[..k] || p[|prefix|] == name;
      } else {
        assert p in below ==> prefix + [name] <= p;
      }
    }
    forall p, q | p in found && q in below ensures Before(p, q) {
      assert q[|prefix|] == name;
      EarlierName(prefix, p, q);
    }
  }

  /** Nothing but a directory has anything below it. */
  lemma Leaf(n: Node, prefix: Path, p: Path)
    requires !n.Directory?
    ensures Under(n, prefix, p) <==> n.File? && p == prefix
  {
  }

  /** The recursive walk: the regular files below a directory, each with the prefix that led there. */
  method Collect(n: Node, prefix: Path) returns (found: seq<Path>)
    requires n.Directory?
    ensures Ordered(found)
    ensures forall p :: p in found <==> Under(n, prefix, p)
    decreases n
  {
    found := [];
    var names := SortedNames(n.entries.Keys);
    for k := 0 to |names|
      invariant Walked(n, names[..k], prefix, found)
    {
      var name := names[k];
      assert name in names;
      var entry := n.entries[name];
      var below: seq<Path> := [];
      match entry {
        case Symlink =>
        case File(_) => below := [prefix + [name]];
        case Special =>
        case Directory(_) => below := Collect(entry, prefix + [name]);
      }
      forall p ensures p in below <==> Under(entry, prefix + [name], p) {
        if !entry.Directory? {
          Leaf(entry, prefix + [name], p);
        }
      }
      WalkNext(n, names, k, prefix, found, below);
      found := found + below;
    }
    assert names[..|names|] == names;
    forall p ensures p in found <==> Under(n, prefix, p) {
      WholeDirectory(n, prefix, p);
    }
  }

  lemma WholeDirectory(n: Node, prefix: Path, p: Path)
    requires n.Directory?
    ensures Under(n, prefix, p) ==> prefix < p && p[|prefix|] in n.entries
  {
  }

  // ------------------------------------------------- printed names

  /** Path(*parts).as_posix() for entry names. */
  function Print(path: Path): string { Join("/", path) }

  /** The text between slashes. */
  function Split(text: string): (parts: seq<string>)
    ensures parts != [] && forall part :: part in parts ==> '/' !in part
  {
    if text == "" then [""]
    else
      var rest := Split(text[1..]);
      if text[0] == '/' then [""] + rest else [[text[0]] + rest[0]] + rest[1..]
  }

  /** Path(text).parts of a text that does not begin with a slash. */
  function Parts(pieces: seq<string>): (parts: seq<string>)
    ensures forall part :: part in parts <==> part in pieces && part != "" && part != "."
  {
    if pieces == [] then []
    else if pieces[0] == "" || pieces[0] == "." then Parts(pieces[1..])
    else [pieces[0]] + Parts(pieces[1..])
  }

  /** The canonical components of a name, or refusal. */
  function SafeRelativeParts(text: string): (r: Option<Path>)
    ensures r.Some? ==> r.value != [] && forall part :: part in r.value ==> EntryName(part)
  {
    if text != "" && text[0] == '/' then None
    else
      var parts := Parts(Split(text));
      if parts == [] || exists part :: part in parts && part in {"", ".", ".."} then None else Some(parts)
  }

  lemma {:induction false} SplitPiece(piece: string)
    requires '/' !in piece
    ensures Split(piece) == [piece]
  {
    if piece != "" {
      SplitPiece(piece[1..]);
      assert piece == [piece[0]] + piece[1..];
    }
  }

  lemma {:induction false} SplitFirst(piece: string, rest: string)
    requires '/' !in piece
    ensures Split(piece + "/" + rest) == [piece] + Split(rest)
  {
    var text := piece + "/" + rest;
    if piece == "" {
      assert text[1..] == rest;
    } else {
      SplitFirst(piece[1..], rest);
      assert text[1..] == piece[1..] + "/" + rest;
      assert piece == [piece[0]] + piece[1..];
    }
  }

  lemma {:induction false} SplitPrint(path: Path)
    requires path != [] && forall part :: part in path ==> EntryName(part)
    ensures Split(Print(path)) == path
  {
    assert path[0] in path;
    if |path| == 1 {
      SplitPiece(path[0]);
    } else {
      SplitPrint(path[1..]);
      SplitFirst(path[0], Print(path[1..]));
    }
  }

  lemma {:induction false} PartsOfNames(path: Path)
    requires forall part :: part in path ==> EntryName(part)
    ensures Parts(path) == path
  {
    if path != [] {
      assert path[0] in path && EntryName(path[0]);
      PartsOfNames(path[1..]);
    }
  }

  /** Splitting loses nothing: the pieces joined by slashes are the text. */
  lemma {:induction false} SplitJoins(text: string)
    ensures Join("/", Split(text)) == text
  {
    if text != "" {
      var rest := Split(text[1..]);
      SplitJoins(text[1..]);
      if text[0] == '/' {
        assert Split(text)[1..] == rest;
      } else if |rest| > 1 {
        assert Split(text)[1..] == rest[1..];
      }
      assert text == [text[0]] + text[1..];
    }
  }

  /** Empty pieces and dots are skipped, and the others stay in their order. */
  lemma {:induction false} PartsInOrder(first: seq<string>, rest: seq<string>)
    ensures Parts(first + rest) == Parts(first) + Parts(rest)
  {
    if first == [] {
      assert first + rest == rest;
    } else {
      assert (first + rest)[1..] == first[1..] + rest;
      PartsInOrder(first[1..], rest);
    }
  }

  /** A name is refused exactly when it begins with a slash, names nothing, or climbs; otherwise its
      components are the pieces between its slashes but for the empty ones and dots. */
  lemma NamesExactly(text: string)
    ensures SafeRelativeParts(text).None? <==>
              || (text != "" && text[0] == '/')
              || (forall piece :: piece in Split(text) ==> piece in {"", "."})
              || ".." in Split(text)
    ensures SafeRelativeParts(text).Some? ==> SafeRelativeParts(text).value == Parts(Split(text))
  {
    var parts := Parts(Split(text));
    if parts != [] {
      assert parts[0] in parts;
    }
  }

  /** A printed name parses back to its components. */
  lemma PrintedNameParsesBack(path: Path)
    requires path != [] && forall part :: part in path ==> EntryName(part)
    ensures SafeRelativeParts(Print(path)) == Some(path)
  {
    SplitPrint(path);
    PartsOfNames(path);
    assert path[0] in path && EntryName(path[0]);
    assert Print(path)[0] == path[0][0];
    assert path[0][0] in path[0];
  }

  lemma {:induction false} FilesHaveLegalPaths(n: Node, path: Path)
    requires Legal(n) && Lookup(n, path).Some?
    ensures forall part :: part in path ==> EntryName(part)
    decreases |path|
  {
    if path != [] {
      FilesHaveLegalPaths(n.entries[path[0]], path[1..]);
      assert path == [path[0]] + path[1..];
    }
  }

  // ---------------------------------------------------------------- read

  const CHUNK: nat := 65_536

  /** Reading to the end of a file; each read returns some of what is left. */
  method ReadAll(content: Bytes) returns (read: Bytes)
    ensures read == content
  {
    read := [];
    while |read| < |content|
      invariant read <= content
    {
      var size :| 1 <= size <= CHUNK && size <= |content| - |read|;
      read := read + content[|read|..|read| + size];
    }
  }

  /** Opens each directory of a name without following links, then the file itself. */
  method ReadRegularDescendant(root: Node, relative: string) returns (r: Option<Bytes>)
    requires root.Directory?
    ensures r.Some? <==>
              var parts := SafeRelativeParts(relative);
              parts.Some? && RegularAt(root, parts.value)
    ensures r.Some? ==> Lookup(root, SafeRelativeParts(relative).value) == Some(File(r.value))
  {
    var safe := SafeRelativeParts(relative);
    if safe.None? {
      return None;
    }
    var parts := safe.value;
    var current := root;
    for i := 0 to |parts| - 1
      invariant current.Directory?
      invariant Lookup(root, parts) == Lookup(current, parts[i..])
    {
      assert parts[i..][1..] == parts[i + 1..];
      if parts[i] !in current.entries {
        return None;
      }
      var child := current.entries[parts[i]];
      if !child.Directory? {
        Leaf(child, [], parts[i + 1..]);
        return None;
      }
      current := child;
    }
    var last := parts[|parts| - 1];
    assert parts[|parts| - 1..] == [last];
    if last !in current.entries || !current.entries[last].File? {
      return None;
    }
    var read := ReadAll(current.entries[last].content);
    r := Some(read);
  }

  // --------------------------------------------------------- the listing

  datatype ArtifactFile = ArtifactFile(name: string, content: Bytes)

  /** Every regular file reachable without links, in path order, named by its path and with its
      bytes; nothing else, nothing twice, and no read of a listed name fails. */
  method ArtifactFiles(root: Node) returns (files: seq<ArtifactFile>, ghost paths: seq<Path>)
    requires root.Directory? && Legal(root)
    ensures Ordered(paths) && |files| == |paths|
    ensures forall p :: p in paths <==> RegularAt(root, p)
    ensures forall i :: 0 <= i < |files| ==>
              && files[i].name == Print(paths[i])
              && Lookup(root, paths[i]) == Some(File(files[i].content))
    ensures forall i, j :: 0 <= i < j < |files| ==> files[i].name != files[j].name
  {
    var found := Collect(root, []);
    paths := found;
    forall p ensures p in paths <==> RegularAt(root, p) {
      assert p[0..] == p;
    }
    files := [];
    for i := 0 to |found|
      invariant |files| == i
      invariant forall k :: 0 <= k < i ==>
                  && files[k].name == Print(paths[k])
                  && Lookup(root, paths[k]) == Some(File(files[k].content))
    {
      ListedNameReadsBack(root, found[i]);
      var content := ReadRegularDescendant(root, Print(found[i]));
      files := files + [ArtifactFile(Print(found[i]), content.value)];
    }
    forall i, j | 0 <= i < j < |files| ensures files[i].name != files[j].name {
      OrderedHasNoDuplicates(paths, i, j);
      ListedNameReadsBack(root, paths[i]);
      ListedNameReadsBack(root, paths[j]);
    }
  }

  lemma ListedNameReadsBack(root: Node, path: Path)
    requires root.Directory? && Legal(root) && RegularAt(root, path)
    ensures SafeRelativeParts(Print(path)) == Some(path)
  {
    FilesHaveLegalPaths(root, path);
    PrintedNameParsesBack(path);
  }
}
