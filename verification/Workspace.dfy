/** Validating an untrusted file snapshot, and restoring it into an empty directory. */
module Workspace {
  import opened Records

  const CANDIDATE_LIMIT: nat := 1024 * 1024
  const MAX_FILES: nat := 128
  const MAX_DEPTH: nat := 16

  // ---- Paths ----

  type Path = seq<string>

  /** A path's text cut at every slash. */
  function Split(text: string): (parts: Path)
    ensures parts != [] && forall part | part in parts :: '/' !in part
  {
    if text == "" then [""]
    else if text[0] == '/' then [""] + Split(text[1..])
    else
      var rest := Split(text[1..]);
      [[text[0]] + rest[0]] + rest[1..]
  }

  function Join(parts: Path): string {
    if parts == [] then ""
    else if |parts| == 1 then parts[0]
    else parts[0] + "/" + Join(parts[1..])
  }

  /** The components a pure path keeps: neither empty nor the current directory. */
  function Kept(parts: Path): (kept: Path)
    ensures forall part | part in kept :: part in parts && part != "" && part != "."
  {
    if parts == [] then []
    else (if parts[0] == "" || parts[0] == "." then [] else [parts[0]]) + Kept(parts[1..])
  }

  predicate Clean(part: string) {
    '/' !in part && part != "" && part != "."
  }

  function Parts(name: string): (parts: Path)
    ensures forall part | part in parts :: Clean(part)
  {
    Kept(Split(name))
  }

  lemma {:induction false} SplitComponent(head: string, text: string)
    requires '/' !in head
    ensures Split(head + "/" + text) == [head] + Split(text)
  {
    if head == "" {
      assert head + "/" + text == "/" + text;
      assert ("/" + text)[1..] == text;
    } else {
      assert (head + "/" + text)[1..] == head[1..] + "/" + text;
      SplitComponent(head[1..], text);
      assert [head[0]] + head[1..] == head;
    }
  }

  lemma {:induction false} SplitWhole(text: string)
    requires '/' !in text
    ensures Split(text) == [text]
  {
    if text != "" {
      SplitWhole(text[1..]);
      assert [text[0]] + text[1..] == text;
    }
  }

  lemma {:induction false} SplitJoin(parts: Path)
    requires parts != [] && forall part | part in parts :: '/' !in part
    ensures Split(Join(parts)) == parts
  {
    if |parts| == 1 {
      SplitWhole(parts[0]);
    } else {
      SplitJoin(parts[1..]);
      SplitComponent(parts[0], Join(parts[1..]));
    }
  }

  lemma {:induction false} KeptWhole(parts: Path)
    requires forall part | part in parts :: Clean(part)
    ensures Kept(parts) == parts
  {
    if parts != [] {
      assert Clean(parts[0]);
      KeptWhole(parts[1..]);
    }
  }

  /** Clean components, printed and read back, are the same path. */
  lemma PartsOfJoin(parts: Path)
    requires parts != [] && forall part | part in parts :: Clean(part)
    ensures Parts(Join(parts)) == parts
  {
    SplitJoin(parts);
    KeptWhole(parts);
  }

  // ---- Validation ----

  /** What a JSON value under a file name holds: text, with its bytes when it is valid
      base64, or something else. */
  datatype Entry = Text(decoded: Option<Bytes>) | NotText
  datatype File = File(name: string, entry: Entry) {
    function Data(): Bytes {
      if entry.Text? && entry.decoded.Some? then entry.decoded.value else []
    }
  }

  predicate SafeName(name: string) {
    var parts := Parts(name);
    && name != "" && parts != []
    && name[0] != '/'
    && Join(parts) == name
    && ".." !in parts
    && |parts| <= MAX_DEPTH
    && (0 as char) !in name
  }

  /** A bounded path of clean components that never leads upwards. */
  predicate SafePath(parts: Path) {
    parts != [] && |parts| <= MAX_DEPTH && forall part | part in parts :: Clean(part) && part != ".." && (0 as char) !in part
  }

  lemma {:induction false} JoinedChars(parts: Path, c: char)
    requires parts != [] && c != '/'
    ensures c in Join(parts) <==> exists part | part in parts :: c in part
  {
    if |parts| > 1 {
      JoinedChars(parts[1..], c);
      assert parts == [parts[0]] + parts[1..];
      assert Join(parts) == parts[0] + ("/" + Join(parts[1..]));
    }
  }

  /** The accepted names are exactly the safe paths as printed, each read back as the path
      it was printed from. */
  lemma SafeNamesArePaths(name: string)
    ensures SafeName(name) <==> SafePath(Parts(name)) && name == Join(Parts(name))
    ensures forall parts | SafePath(parts) :: SafeName(Join(parts)) && Parts(Join(parts)) == parts
  {
    if Parts(name) != [] {
      JoinedChars(Parts(name), 0 as char);
    }
    forall parts | SafePath(parts)
      ensures SafeName(Join(parts)) && Parts(Join(parts)) == parts
    {
      PartsOfJoin(parts);
      JoinedChars(parts, 0 as char);
      assert parts[0] in parts;
    }
  }

  function Names(files: seq<File>): set<string> {
    set file | file in files :: file.name
  }

  /** The texts of the directories above a path, nearest first. */
  function Parents(parts: Path): seq<string> {
    if |parts| <= 1 then ["."]
    else [Join(parts[..|parts| - 1])] + Parents(parts[..|parts| - 1])
  }

  lemma {:induction false} ParentsCover(parts: Path, k: nat)
    requires 0 < k < |parts|
    ensures Join(parts[..k]) in Parents(parts)
  {
    var init := parts[..|parts| - 1];
    if k < |parts| - 1 {
      ParentsCover(init, k);
      assert init[..k] == parts[..k];
    }
  }

  /** No directory above the file is itself the name of a file. */
  predicate ParentsFree(name: string, names: set<string>) {
    forall parent | parent in Parents(Parts(name)) :: parent !in names
  }

  predicate EntryOk(file: File, names: set<string>) {
    && SafeName(file.name)
    && ParentsFree(file.name, names)
    && file.entry.Text? && file.entry.decoded.Some?
  }

  function Size(files: seq<File>): nat {
    if files == [] then 0
    else
      Size(files[..|files| - 1]) + |files[|files| - 1].Data()|
  }

  /** Names are the keys of one JSON object, so they are distinct. */
  ghost predicate DistinctNames(files: seq<File>) {
    forall i, j | 0 <= i < j < |files| :: files[i].name != files[j].name
  }

  predicate AllOk(files: seq<File>, names: set<string>) {
    files == [] || (AllOk(files[..|files| - 1], names) && EntryOk(files[|files| - 1], names))
  }

  lemma {:induction false} EachIsOk(files: seq<File>, names: set<string>, i: nat)
    requires AllOk(files, names) && i < |files|
    ensures EntryOk(files[i], names)
  {
    if i < |files| - 1 {
      EachIsOk(files[..|files| - 1], names, i);
    }
  }

  predicate Accepted(files: seq<File>) {
    |files| <= MAX_FILES && AllOk(files, Names(files)) && Size(files) <= CANDIDATE_LIMIT
  }

  lemma {:induction false} SizeGrows(files: seq<File>, k: nat)
    requires k <= |files|
    ensures Size(files[..k]) <= Size(files)
  {
    if k == |files| {
      assert files[..k] == files;
    } else {
      assert files[..|files| - 1][..k] == files[..k];
      SizeGrows(files[..|files| - 1], k);
    }
  }

  /** One file: a safe name with nothing but directories above it, holding valid base64. */
  method CheckFile(file: File, names: set<string>) returns (ok: bool)
    ensures ok == EntryOk(file, names)
  {
    if !SafeName(file.name) || file.entry.NotText? {
      return false;
    }
    if !ParentsFree(file.name, names) {
      return false;
    }
    ok := file.entry.decoded.Some?;
  }

  lemma RefusedAt(files: seq<File>, names: set<string>, i: nat)
    requires i < |files| && (!EntryOk(files[i], names) || Size(files[..i + 1]) > CANDIDATE_LIMIT)
    ensures !AllOk(files, names) || Size(files) > CANDIDATE_LIMIT
  {
    SizeGrows(files, i + 1);
    if AllOk(files, names) {
      EachIsOk(files, names, i);
    }
  }

  /** Validate an untrusted bounded file snapshot before restoring any bytes. `value`
      is the JSON object the data holds, if it holds one. */
  method DecodeWorkspace(encodedSize: nat, value: Option<seq<File>>) returns (out: Outcomes<seq<File>>)
    ensures out.Ok? <==> encodedSize <= 2 * CANDIDATE_LIMIT && value.Some? && Accepted(value.value)
    ensures out.Ok? ==> out.value == value.value
  {
    if encodedSize > 2 * CANDIDATE_LIMIT || value.None? || |value.value| > MAX_FILES {
      return Err(InvalidInput);
    }
    var files := value.value;
    var names := Names(files);
    var size := 0;
    for i := 0 to |files|
      invariant size == Size(files[..i]) <= CANDIDATE_LIMIT
      invariant AllOk(files[..i], names)
    {
      assert files[..i + 1][..i] == files[..i];
      var ok := CheckFile(files[i], names);
      if !ok {
        RefusedAt(files, names, i);
        return Err(InvalidInput);
      }
      size := size + |files[i].Data()|;
      if size > CANDIDATE_LIMIT {
        RefusedAt(files, names, i);
        return Err(InvalidInput);
      }
    }
    assert files[..|files|] == files;
    out := Ok(files);
  }

  /** A file may lie below another only if the other's name is one of its parents. */
  lemma BelowAnother(above: string, below: string, names: set<string>)
    requires SafeName(above) && SafeName(below) && above in names && ParentsFree(below, names)
    requires Parts(above) <= Parts(below)
    ensures above == below
  {
    var k := |Parts(above)|;
    assert Parts(below)[..k] == Parts(above);
    if k < |Parts(below)| {
      ParentsCover(Parts(below), k);
    } else {
      assert Parts(above) == Parts(below);
    }
  }

  /** In an accepted snapshot no file lies below another, and names are distinct paths. */
  lemma NoAncestors(files: seq<File>, i: nat, j: nat)
    requires Accepted(files) && DistinctNames(files) && i < |files| && j < |files|
    ensures Parts(files[i].name) <= Parts(files[j].name) ==> i == j
  {
    EachIsOk(files, Names(files), i);
    EachIsOk(files, Names(files), j);
    if Parts(files[i].name) <= Parts(files[j].name) {
      assert files[i].name in Names(files);
      BelowAnother(files[i].name, files[j].name, Names(files));
    }
  }

  // ---- Restoring ----

  /** The directory tree below the workspace; the empty path is the workspace itself. */
  datatype Tree = Tree(directories: set<Path>, files: map<Path, Bytes>)

  /** Create a directory and any missing ones above it; fails where a file is. */
  method MakeDirectories(tree: Tree, path: Path) returns (out: Outcomes<Tree>)
    requires [] in tree.directories
    ensures out.Ok? <==> forall p | p in tree.files :: !(p <= path)
    ensures out.Ok? ==> out.value.files == tree.files
    ensures out.Ok? ==> forall p :: p in out.value.directories <==> p in tree.directories || p <= path
  {
    var made := tree;
    for i := 0 to |path| + 1
      invariant made.files == tree.files
      invariant forall p | p in tree.files :: !(|p| < i && p <= path)
      invariant forall p :: p in made.directories <==> p in tree.directories || (|p| < i && p <= path)
    {
      if path[..i] in made.files {
        return Err(InvalidInput);
      }
      made := made.(directories := made.directories + {path[..i]});
      assert forall p | p <= path && |p| == i :: p == path[..i];
    }
    out := Ok(made);
  }

  /** Create a file that must not exist yet. */
  method CreateExclusive(tree: Tree, path: Path, data: Bytes) returns (out: Outcomes<Tree>)
    requires path != []
    ensures out.Ok? <==> path !in tree.files && path !in tree.directories && path[..|path| - 1] in tree.directories
    ensures out.Ok? ==> out.value == tree.(files := tree.files[path := data])
  {
    if path in tree.files || path in tree.directories || path[..|path| - 1] !in tree.directories {
      return Err(InvalidInput);
    }
    out := Ok(tree.(files := tree.files[path := data]));
  }

  /** A file to create: where, and what it holds. */
  datatype Item = Item(path: Path, data: Bytes)

  function Items(files: seq<File>): (items: seq<Item>)
    ensures |items| == |files|
  {
    seq(|files|, i requires 0 <= i < |files| => Item(Parts(files[i].name), files[i].Data()))
  }

  /** Exactly these files, with their bytes. */
  ghost predicate HoldsFiles(tree: Tree, items: seq<Item>) {
    && (forall item | item in items :: item.path in tree.files && tree.files[item.path] == item.data)
    && (forall path | path in tree.files :: exists item | item in items :: item.path == path)
  }

  /** Exactly the workspace and the directories above the files. */
  ghost predicate HoldsDirectories(tree: Tree, items: seq<Item>) {
    forall path ::
      path in tree.directories <==>
      path == [] || exists item | item in items :: path < item.path
  }

  lemma OneMoreFile(before: Tree, after: Tree, items: seq<Item>, item: Item)
    requires HoldsFiles(before, items) && item.path !in before.files
    requires after.files == before.files[item.path := item.data]
    ensures HoldsFiles(after, items + [item])
  {
    forall path | path in after.files
      ensures exists other | other in items + [item] :: other.path == path
    {
      if path == item.path {
        assert item in items + [item];
      } else {
        var other :| other in items && other.path == path;
        assert other in items + [item];
      }
    }
  }

  lemma OneMoreDirectory(before: Tree, after: Tree, items: seq<Item>, item: Item)
    requires HoldsDirectories(before, items) && item.path != []
    requires forall p :: p in after.directories <==> p in before.directories || p < item.path
    ensures HoldsDirectories(after, items + [item])
  {
    forall p
      ensures p in after.directories <==> p == [] || exists other | other in items + [item] :: p < other.path
    {
      assert item in items + [item];
      if other :| other in items && p < other.path {
        assert other in items + [item];
      }
    }
  }

  /** No item lies at, above or below another. */
  ghost predicate Apart(items: seq<Item>) {
    && (forall item | item in items :: item.path != [])
    && forall i, j | 0 <= i < |items| && 0 <= j < |items| && i != j :: !(items[i].path <= items[j].path)
  }

  lemma AcceptedIsApart(files: seq<File>)
    requires Accepted(files) && DistinctNames(files)
    ensures Apart(Items(files))
  {
    forall i | 0 <= i < |files|
      ensures Parts(files[i].name) != []
    {
      EachIsOk(files, Names(files), i);
    }
    forall i, j | 0 <= i < |files| && 0 <= j < |files| && i != j
      ensures !(Parts(files[i].name) <= Parts(files[j].name))
    {
      NoAncestors(files, i, j);
    }
  }

  /** Neither the path nor anything above it is taken by a file or directory. */
  ghost predicate Free(tree: Tree, path: Path)
    requires path != []
  {
    && path !in tree.files && path !in tree.directories
    && forall p | p in tree.files :: !(p <= path[..|path| - 1])
  }

  lemma NothingInTheWay(items: seq<Item>, i: nat, tree: Tree)
    requires Apart(items) && i < |items|
    requires HoldsFiles(tree, items[..i]) && HoldsDirectories(tree, items[..i])
    ensures items[i].path != [] && Free(tree, items[i].path)
  {
    var path := items[i].path;
    assert items[i] in items;
    forall p | p in tree.files
      ensures !(p <= path)
    {
      var item :| item in items[..i] && item.path == p;
      var j :| 0 <= j < i && items[j] == item;
    }
    forall item | item in items[..i]
      ensures !(path < item.path)
    {
      var j :| 0 <= j < i && items[j] == item;
    }
    assert forall p | p in tree.files && p <= path[..|path| - 1] :: p <= path;
  }

  /** Make the directories above a file, then the file. */
  method RestoreOne(item: Item, tree: Tree) returns (out: Outcomes<Tree>)
    requires [] in tree.directories && item.path != [] && Free(tree, item.path)
    ensures out.Ok? && out.value.files == tree.files[item.path := item.data]
    ensures forall p :: p in out.value.directories <==> p in tree.directories || p < item.path
  {
    var path := item.path;
    var parent := path[..|path| - 1];
    var made := MakeDirectories(tree, parent);
    assert path == parent + [path[|path| - 1]];
    out := CreateExclusive(made.value, path, item.data);
  }

  method RestoreItems(items: seq<Item>) returns (out: Outcomes<Tree>)
    requires Apart(items)
    ensures out.Ok? && HoldsFiles(out.value, items) && HoldsDirectories(out.value, items)
  {
    var tree := Tree({[]}, map[]);
    for i := 0 to |items|
      invariant HoldsFiles(tree, items[..i]) && HoldsDirectories(tree, items[..i])
    {
      NothingInTheWay(items, i, tree);
      var restored := RestoreOne(items[i], tree);
      OneMoreFile(tree, restored.value, items[..i], items[i]);
      OneMoreDirectory(tree, restored.value, items[..i], items[i]);
      tree := restored.value;
      assert items[..i + 1] == items[..i] + [items[i]];
    }
    assert items[..|items|] == items;
    out := Ok(tree);
  }

  /** Restore an accepted snapshot, in whatever order its files come: every directory
      and file can be created, and the result is exactly that file tree. */
  method Restore(files: seq<File>) returns (out: Outcomes<Tree>)
    requires Accepted(files) && DistinctNames(files)
    ensures out.Ok? && HoldsFiles(out.value, Items(files)) && HoldsDirectories(out.value, Items(files))
  {
    AcceptedIsApart(files);
    out := RestoreItems(Items(files));
  }
}
