/**
 Virtual file paths (src/helperFunctions/virtual_file_path.py): their parts, and the merging of lists of
 them. Paths with the same base come from the same container; when a container is unpacked again, its
 paths replace the older ones.
 */
module VirtualFilePath {
  import opened Basics
  import opened Strings

  type Path = string

  const SEPARATOR: char := '|'

  // ----- The parts of a path -----

  /** Python's `[part for part in parts if part]`. */
  function NonEmpty(parts: seq<string>): seq<string> {
    if parts == [] then []
    else (if parts[0] == "" then [] else [parts[0]]) + NonEmpty(parts[1..])
  }

  function Elements(path: Path): seq<string> {
    NonEmpty(Split(path, SEPARATOR))
  }

  function JoinPath(elements: seq<string>): Path {
    Join(elements, SEPARATOR)
  }

  function Front<T>(xs: seq<T>): seq<T> {
    if xs == [] then [] else xs[..|xs| - 1]
  }

  function Base(path: Path): Path {
    JoinPath(Front(Elements(path)))
  }

  /** The last element; a path that consists of separators only raises an IndexError. */
  function Top(path: Path): Option<string> {
    if path == "" then Some("")
    else if Elements(path) == [] then None
    else Some(Elements(path)[|Elements(path)| - 1])
  }

  /** The container that a path says the file is in: the second last element. */
  function Parent(path: Path): Option<string> {
    if |Elements(path)| < 2 then None else Some(Elements(path)[|Elements(path)| - 2])
  }

  /** The identifiers in a path: a firmware's path is its identifier, other paths end in a file path. */
  function Uids(path: Path): seq<string> {
    if |Elements(path)| == 1 then Elements(path) else Front(Elements(path))
  }

  ghost predicate IsElement(part: string) {
    part != "" && SEPARATOR !in part
  }

  lemma {:induction false} NonEmptyParts(parts: seq<string>)
    ensures forall part :: part in NonEmpty(parts) <==> part in parts && part != ""
  {
    if parts != [] {
      NonEmptyParts(parts[1..]);
      assert parts == [parts[0]] + parts[1..];
    }
  }

  lemma {:induction false} NonEmptySame(parts: seq<string>)
    requires "" !in parts
    ensures NonEmpty(parts) == parts
  {
    if parts != [] {
      NonEmptySame(parts[1..]);
    }
  }

  lemma ElementsAreElements(path: Path)
    ensures forall part :: part in Elements(path) ==> IsElement(part)
  {
    SplitParts(path, SEPARATOR);
    NonEmptyParts(Split(path, SEPARATOR));
  }

  lemma NoElements()
    ensures Elements("") == []
  {
    assert Split("", SEPARATOR) == [""] && [""][1..] == [];
  }

  /** Splitting undoes joining. */
  lemma ElementsOfJoin(elements: seq<string>)
    requires forall part :: part in elements ==> IsElement(part)
    ensures Elements(JoinPath(elements)) == elements
  {
    if elements == [] {
      NoElements();
    } else {
      SplitJoin(elements, SEPARATOR);
      NonEmptySame(elements);
    }
  }

  /** The base is the path without its last element, whatever empty parts the path has. */
  lemma ElementsOfBase(path: Path)
    ensures Elements(Base(path)) == Front(Elements(path))
  {
    ElementsAreElements(path);
    ElementsOfJoin(Front(Elements(path)));
  }

  /** Base and top put together are the path again, up to empty parts. */
  lemma BaseAndTop(path: Path)
    requires Elements(path) != []
    ensures Top(path).Some? && Elements(JoinPath([Base(path), Top(path).value])) == Elements(path)
  {
    var elements := Elements(path);
    NoElements();
    ElementsAreElements(path);
    var top := elements[|elements| - 1];
    assert IsElement(top);
    ElementsOfBase(path);
    assert elements == Front(elements) + [top];
    ElementsOfLonger(Base(path), top);
  }

  lemma ElementsOfLonger(base: Path, top: string)
    requires IsElement(top)
    ensures Elements(JoinPath([base, top])) == Elements(base) + [top]
  {
    ElementsOfPair(base, top);
    SplitWord(top, SEPARATOR);
    NonEmptySame([top]);
  }

  lemma ElementsOfPair(a: Path, b: Path)
    ensures Elements(JoinPath([a, b])) == Elements(a) + Elements(b)
  {
    SplitConcat(a, b, SEPARATOR);
    NonEmptyConcat(Split(a, SEPARATOR), Split(b, SEPARATOR));
    assert [a, b][..1] == [a] && JoinPath([a]) == a;
    assert JoinPath([a, b]) == a + [SEPARATOR] + b;
  }

  /** The virtual path of a file that was extracted from another one (src/unpacker/unpack.py). */
  function ChildPath(parentPath: Path, parentUid: string, file: string): Path {
    JoinPath([Base(parentPath), parentUid, file])
  }

  /** It consists of the containers of the parent, the parent, and the file, whatever the file is called. */
  lemma ElementsOfChild(parentPath: Path, parentUid: string, file: string)
    requires IsElement(parentUid)
    ensures Elements(ChildPath(parentPath, parentUid, file))
         == Front(Elements(parentPath)) + [parentUid] + Elements(file)
  {
    var base := Base(parentPath);
    assert [base, parentUid, file][..2] == [base, parentUid];
    assert ChildPath(parentPath, parentUid, file) == JoinPath([base, parentUid]) + [SEPARATOR] + file;
    assert JoinPath([JoinPath([base, parentUid]), file]) == JoinPath([base, parentUid]) + [SEPARATOR] + file by {
      assert [JoinPath([base, parentUid]), file][..1] == [JoinPath([base, parentUid])];
      assert JoinPath([JoinPath([base, parentUid])]) == JoinPath([base, parentUid]);
    }
    ElementsOfPair(JoinPath([base, parentUid]), file);
    ElementsOfLonger(base, parentUid);
    ElementsOfBase(parentPath);
  }

  /** The path names the right parent, and the parent's path as its base, if the file name holds no separator. */
  lemma ChildNamesParent(parentPath: Path, parentUid: string, file: string)
    requires IsElement(parentUid) && IsElement(file)
    ensures var child := ChildPath(parentPath, parentUid, file);
            Parent(child) == Some(parentUid) && Top(child) == Some(file)
            && Elements(Base(child)) == Front(Elements(parentPath)) + [parentUid]
  {
    var child, front := ChildPath(parentPath, parentUid, file), Front(Elements(parentPath)) + [parentUid];
    ElementsOfChild(parentPath, parentUid, file);
    SplitWord(file, SEPARATOR);
    NonEmptySame([file]);
    ElementsOfBase(child);
    NoElements();
    assert Elements(child) == front + [file] && Front(front + [file]) == front;
  }

  /**
   The path of an extracted file names the right parent exactly if its name has no separator between
   non-empty parts, or if the part before the last one happens to be the parent's identifier.
   */
  lemma ChildNamesParentIff(parentPath: Path, parentUid: string, file: string)
    requires IsElement(parentUid) && Elements(file) != []
    ensures Parent(ChildPath(parentPath, parentUid, file)) == Some(parentUid)
       <==> |Elements(file)| == 1 || Elements(file)[|Elements(file)| - 2] == parentUid
  {
    ElementsOfChild(parentPath, parentUid, file);
  }

  /** A file whose name holds a separator is attributed to a part of its name. */
  lemma SeparatorInFileName(parentPath: Path, parentUid: string, a: string, b: string)
    requires IsElement(parentUid) && IsElement(a) && IsElement(b)
    ensures Parent(ChildPath(parentPath, parentUid, a + [SEPARATOR] + b)) == Some(a)
  {
    ElementsOfChild(parentPath, parentUid, a + [SEPARATOR] + b);
    SplitLast(a, b, SEPARATOR);
    SplitWord(a, SEPARATOR);
    NonEmptySame([a] + [b]);
    assert Elements(a + [SEPARATOR] + b) == [a, b];
  }

  /**
   The identifiers in the path of an extracted file whose name holds no separator are the containers of its parent
   and the parent; the identifier in the path of a firmware is its own.
   */
  lemma UidsOfChild(parentPath: Path, parentUid: string, file: string)
    requires IsElement(parentUid) && IsElement(file)
    ensures Uids(ChildPath(parentPath, parentUid, file)) == Front(Elements(parentPath)) + [parentUid]
    ensures Uids(parentUid) == [parentUid]
  {
    var front := Front(Elements(parentPath)) + [parentUid];
    ElementsOfChild(parentPath, parentUid, file);
    SplitWord(file, SEPARATOR);
    SplitWord(parentUid, SEPARATOR);
    NonEmptySame([file]);
    NonEmptySame([parentUid]);
    assert Front(front + [file]) == front;
  }

  lemma {:induction false} NonEmptyConcat(a: seq<string>, b: seq<string>)
    ensures NonEmpty(a + b) == NonEmpty(a) + NonEmpty(b)
  {
    if a == [] {
      assert a + b == b;
    } else {
      NonEmptyConcat(a[1..], b);
      ConcatTail(a, b);
      var head := if a[0] == "" then [] else [a[0]];
      ConcatThree(head, NonEmpty(a[1..]), NonEmpty(b));
      assert NonEmpty(a) == head + NonEmpty(a[1..]);
      assert NonEmpty(a + b) == head + NonEmpty((a + b)[1..]);
    }
  }

  /** The parent is the top of the base: a path that names a parent is not just a firmware's identifier. */
  lemma ParentIsTopOfBase(path: Path)
    ensures Parent(path).Some? ==> Top(Base(path)) == Parent(path) && Parent(path).value in Uids(path)
    ensures Parent(path) == None <==> Base(path) == ""
  {
    ElementsOfBase(path);
    NoElements();
    var elements := Elements(path);
    if |elements| < 2 {
      assert Front(elements) == [] && Join([], SEPARATOR) == "";
    } else {
      assert Front(elements)[|elements| - 2] == elements[|elements| - 2];
    }
  }

  /** All parents that the paths of a file name. */
  method ParentUids(vfp: map<string, seq<Path>>) returns (parents: set<string>)
    ensures forall p :: p in parents <==>
      exists root, i :: root in vfp && 0 <= i < |vfp[root]| && Parent(vfp[root][i]) == Some(p)
  {
    parents := {};
    var roots := vfp.Keys;
    while roots != {}
      invariant roots <= vfp.Keys
      invariant forall p :: p in parents <==>
        exists root, i :: root in vfp && root !in roots && 0 <= i < |vfp[root]| && Parent(vfp[root][i]) == Some(p)
      decreases roots
    {
      var root :| root in roots;
      var found := ParentsIn(vfp[root]);
      roots, parents := roots - {root}, parents + found;
    }
  }

  method ParentsIn(paths: seq<Path>) returns (parents: set<string>)
    ensures forall p :: p in parents <==> exists i :: 0 <= i < |paths| && Parent(paths[i]) == Some(p)
  {
    parents := {};
    for k := 0 to |paths|
      invariant forall p :: p in parents <==> exists i :: 0 <= i < k && Parent(paths[i]) == Some(p)
    {
      if Parent(paths[k]).Some? {
        parents := parents + {Parent(paths[k]).value};
      }
    }
  }

  // ----- Grouping by base -----

  datatype Entry = Entry(base: Path, paths: seq<Path>)

  /** A dictionary from bases to lists of paths, in the order of insertion. */
  type Grouping = seq<Entry>

  /** `d.setdefault(base, []).append(path)` */
  function AddPath(d: Grouping, path: Path): Grouping {
    if d == [] then [Entry(Base(path), [path])]
    else if d[0].base == Base(path) then [Entry(d[0].base, d[0].paths + [path])] + d[1..]
    else [d[0]] + AddPath(d[1..], path)
  }

  function AddAll(d: Grouping, paths: seq<Path>): Grouping
    decreases paths
  {
    if paths == [] then d else AddAll(AddPath(d, paths[0]), paths[1..])
  }

  function Group(paths: seq<Path>): Grouping {
    AddAll([], paths)
  }

  function Flatten(d: Grouping): seq<Path> {
    if d == [] then [] else d[0].paths + Flatten(d[1..])
  }

  /** The paths of a list that have the given base, in order. */
  function WithBase(paths: seq<Path>, base: Path): seq<Path> {
    if paths == [] then []
    else (if Base(paths[0]) == base then [paths[0]] else []) + WithBase(paths[1..], base)
  }

  /** `d.get(base, [])`; the entries of a dictionary are never empty. */
  function Lookup(d: Grouping, base: Path): seq<Path> {
    if d == [] then [] else if d[0].base == base then d[0].paths else Lookup(d[1..], base)
  }

  predicate EntryOk(e: Entry) {
    e.paths != [] && forall p :: p in e.paths ==> Base(p) == e.base
  }

  /** What every dictionary of paths satisfies: one entry per base, with the paths of that base. */
  predicate Grouped(d: Grouping) {
    d != [] ==> EntryOk(d[0]) && Lookup(d[1..], d[0].base) == [] && Grouped(d[1..])
  }

  lemma {:induction false} AddPathLookup(d: Grouping, path: Path, base: Path)
    ensures Lookup(AddPath(d, path), base) == Lookup(d, base) + (if base == Base(path) then [path] else [])
  {
    if d != [] && d[0].base != Base(path) {
      AddPathLookup(d[1..], path, base);
    }
  }

  lemma {:induction false} AddPathGrouped(d: Grouping, path: Path)
    requires Grouped(d)
    ensures Grouped(AddPath(d, path))
  {
    if d == [] {
      assert EntryOk(Entry(Base(path), [path]));
    } else if d[0].base == Base(path) {
      assert EntryOk(Entry(d[0].base, d[0].paths + [path]));
    } else {
      AddPathGrouped(d[1..], path);
      AddPathLookup(d[1..], path, d[0].base);
    }
  }

  lemma {:induction false} AddAllGrouped(d: Grouping, paths: seq<Path>)
    requires Grouped(d)
    ensures Grouped(AddAll(d, paths))
    decreases paths
  {
    if paths != [] {
      AddPathGrouped(d, paths[0]);
      AddAllGrouped(AddPath(d, paths[0]), paths[1..]);
    }
  }

  lemma {:induction false} AddAllLookup(d: Grouping, paths: seq<Path>, base: Path)
    ensures Lookup(AddAll(d, paths), base) == Lookup(d, base) + WithBase(paths, base)
    decreases paths
  {
    if paths != [] {
      AddPathLookup(d, paths[0], base);
      AddAllLookup(AddPath(d, paths[0]), paths[1..], base);
    }
  }

  /** Grouping puts the paths of a list with the same base together, in their order. */
  lemma GroupIsGrouped(paths: seq<Path>, base: Path)
    ensures Grouped(Group(paths)) && Lookup(Group(paths), base) == WithBase(paths, base)
  {
    AddAllGrouped([], paths);
    AddAllLookup([], paths, base);
  }

  method SplitByBase(paths: seq<Path>) returns (byBase: Grouping)
    ensures byBase == Group(paths)
  {
    byBase := [];
    var rest := paths;
    while rest != []
      invariant AddAll(byBase, rest) == Group(paths)
      decreases rest
    {
      byBase, rest := AddPath(byBase, rest[0]), rest[1..];
    }
  }

  // ----- Grouping undoes flattening -----

  lemma {:induction false} AddPathAtEnd(d: Grouping, e: Entry, path: Path)
    requires Grouped(d) && Lookup(d, Base(path)) == [] && e.base == Base(path)
    ensures AddPath(d, path) == d + [Entry(e.base, [path])]
    ensures AddPath(d + [e], path) == d + [Entry(e.base, e.paths + [path])]
  {
    if d != [] {
      AddPathAtEnd(d[1..], e, path);
      assert (d + [e])[1..] == d[1..] + [e];
    }
  }

  lemma {:induction false} AddEntry(d: Grouping, base: Path, had: seq<Path>, more: seq<Path>)
    requires Grouped(d) && Lookup(d, base) == [] && forall p :: p in more ==> Base(p) == base
    ensures AddAll(d + [Entry(base, had)], more) == d + [Entry(base, had + more)]
    decreases more
  {
    if more == [] {
      assert had + more == had;
    } else {
      AddPathAtEnd(d, Entry(base, had), more[0]);
      AddEntry(d, base, had + [more[0]], more[1..]);
      assert had + [more[0]] + more[1..] == had + more;
    }
  }

  lemma {:induction false} AddAllConcat(d: Grouping, a: seq<Path>, b: seq<Path>)
    ensures AddAll(d, a + b) == AddAll(AddAll(d, a), b)
    decreases a
  {
    if a == [] {
      assert a + b == b;
    } else {
      ConcatTail(a, b);
      AddAllConcat(AddPath(d, a[0]), a[1..], b);
    }
  }

  lemma {:induction false} LookupConcat(d: Grouping, e: Grouping, base: Path)
    requires Grouped(d)
    ensures Lookup(d + e, base) == if Lookup(d, base) != [] then Lookup(d, base) else Lookup(e, base)
  {
    if d == [] {
      assert d + e == e;
    } else {
      LookupConcat(d[1..], e, base);
      assert (d + e)[1..] == d[1..] + e;
    }
  }

  lemma {:induction false} GroupedParts(d: Grouping, e: Grouping)
    requires Grouped(d + e)
    ensures Grouped(d) && Grouped(e)
    ensures e != [] ==> Lookup(d, e[0].base) == []
  {
    if d == [] {
      assert d + e == e;
    } else {
      ConcatTail(d, e);
      GroupedParts(d[1..], e);
      LookupConcat(d[1..], e, d[0].base);
    }
  }

  /** The paths of a well-formed dictionary, added in order, are its entries again. */
  lemma {:induction false} AddFlattened(d: Grouping, e: Grouping)
    requires Grouped(d + e)
    ensures AddAll(d, Flatten(e)) == d + e
    decreases e
  {
    GroupedParts(d, e);
    if e == [] {
      assert d + e == d;
    } else {
      var first := e[0];
      assert d + [first] + e[1..] == d + e;
      AddAllConcat(d, first.paths, Flatten(e[1..]));
      AddPathAtEnd(d, first, first.paths[0]);
      AddEntry(d, first.base, [first.paths[0]], first.paths[1..]);
      assert first.paths == [first.paths[0]] + first.paths[1..];
      AddFlattened(d + [first], e[1..]);
    }
  }

  lemma GroupFlatten(d: Grouping)
    requires Grouped(d)
    ensures Group(Flatten(d)) == d
  {
    assert [] + d == d;
    AddFlattened([], d);
  }

  // ----- Overriding entries -----

  /** `d[e.base] = e.paths`: a known base keeps its place, a new one goes to the end. */
  function SetEntry(d: Grouping, e: Entry): Grouping {
    if d == [] then [e]
    else if d[0].base == e.base then [e] + d[1..]
    else [d[0]] + SetEntry(d[1..], e)
  }

  function Override(d: Grouping, newer: Grouping): Grouping
    decreases newer
  {
    if newer == [] then d else Override(SetEntry(d, newer[0]), newer[1..])
  }

  lemma {:induction false} SetLookup(d: Grouping, e: Entry, base: Path)
    ensures Lookup(SetEntry(d, e), base) == if base == e.base then e.paths else Lookup(d, base)
  {
    if d != [] && d[0].base != e.base {
      SetLookup(d[1..], e, base);
    }
  }

  lemma {:induction false} SetGrouped(d: Grouping, e: Entry)
    requires Grouped(d) && EntryOk(e)
    ensures Grouped(SetEntry(d, e))
  {
    if d != [] && d[0].base != e.base {
      SetGrouped(d[1..], e);
      SetLookup(d[1..], e, d[0].base);
    }
  }

  lemma {:induction false} OverrideGrouped(d: Grouping, newer: Grouping)
    requires Grouped(d) && Grouped(newer)
    ensures Grouped(Override(d, newer))
    decreases newer
  {
    if newer != [] {
      SetGrouped(d, newer[0]);
      OverrideGrouped(SetEntry(d, newer[0]), newer[1..]);
    }
  }

  lemma {:induction false} OverrideLookup(d: Grouping, newer: Grouping, base: Path)
    requires Grouped(newer)
    ensures Lookup(Override(d, newer), base) == if Lookup(newer, base) != [] then Lookup(newer, base) else Lookup(d, base)
    decreases newer
  {
    if newer != [] {
      SetLookup(d, newer[0], base);
      OverrideLookup(SetEntry(d, newer[0]), newer[1..], base);
    }
  }

  lemma {:induction false} SetTwice(d: Grouping, x: Entry, e: Entry)
    requires x.base == e.base
    ensures SetEntry(SetEntry(d, x), e) == SetEntry(d, e)
  {
    if d != [] && d[0].base != e.base {
      SetTwice(d[1..], x, e);
    }
  }

  lemma {:induction false} SetCommutes(d: Grouping, x: Entry, e: Entry)
    requires Lookup(d, e.base) != [] && x.base != e.base
    ensures SetEntry(SetEntry(d, x), e) == SetEntry(SetEntry(d, e), x)
  {
    if d[0].base != e.base && d[0].base != x.base {
      SetCommutes(d[1..], x, e);
    }
  }

  lemma {:induction false} SetAfterOverride(d: Grouping, newer: Grouping, e: Entry)
    requires Grouped(newer) && Lookup(newer, e.base) == [] && Lookup(d, e.base) != []
    ensures SetEntry(Override(d, newer), e) == Override(SetEntry(d, e), newer)
    decreases newer
  {
    if newer != [] {
      SetCommutes(d, newer[0], e);
      SetLookup(d, newer[0], e.base);
      SetAfterOverride(SetEntry(d, newer[0]), newer[1..], e);
    }
  }

  lemma {:induction false} OverrideSet(d: Grouping, newer: Grouping, e: Entry)
    requires Grouped(newer)
    ensures Override(d, SetEntry(newer, e)) == SetEntry(Override(d, newer), e)
    decreases newer
  {
    if newer == [] {
      assert [e][1..] == [];
    } else if newer[0].base == e.base {
      SetLookup(d, newer[0], e.base);
      SetAfterOverride(SetEntry(d, newer[0]), newer[1..], e);
      SetTwice(d, newer[0], e);
      assert ([e] + newer[1..])[1..] == newer[1..];
    } else {
      OverrideSet(SetEntry(d, newer[0]), newer[1..], e);
      assert ([newer[0]] + SetEntry(newer[1..], e))[1..] == SetEntry(newer[1..], e);
    }
  }

  lemma {:induction false} OverrideAssociative(a: Grouping, b: Grouping, c: Grouping)
    requires Grouped(b) && Grouped(c)
    ensures Override(Override(a, b), c) == Override(a, Override(b, c))
    decreases c
  {
    if c != [] {
      OverrideSet(a, b, c[0]);
      SetGrouped(b, c[0]);
      OverrideAssociative(a, SetEntry(b, c[0]), c[1..]);
    }
  }

  lemma {:induction false} SetSame(d: Grouping, e: Entry)
    requires Lookup(d, e.base) == e.paths != []
    ensures SetEntry(d, e) == d
  {
    if d[0].base == e.base {
      assert d[0] == e;
    } else {
      SetSame(d[1..], e);
    }
  }

  /** Overriding by entries that are there already changes nothing. */
  lemma {:induction false} OverrideSame(d: Grouping, before: Grouping, newer: Grouping)
    requires Grouped(d) && d == before + newer
    ensures Override(d, newer) == d
    decreases newer
  {
    if newer != [] {
      GroupedParts(before, newer);
      LookupConcat(before, newer, newer[0].base);
      SetSame(d, newer[0]);
      OverrideSame(d, before + [newer[0]], newer[1..]);
    }
  }

  function Keys(d: Grouping): seq<Path> {
    if d == [] then [] else [d[0].base] + Keys(d[1..])
  }

  /** The keys of `newer` that `d` does not have. */
  function NewKeys(d: Grouping, newer: Grouping): seq<Path> {
    if newer == [] then []
    else (if Lookup(d, newer[0].base) == [] then [newer[0].base] else []) + NewKeys(d, newer[1..])
  }

  lemma {:induction false} SetKeys(d: Grouping, e: Entry)
    requires Grouped(d)
    ensures Keys(SetEntry(d, e)) == Keys(d) + (if Lookup(d, e.base) == [] then [e.base] else [])
  {
    if d != [] && d[0].base != e.base {
      SetKeys(d[1..], e);
    }
  }

  lemma {:induction false} NewKeysAfterSet(d: Grouping, e: Entry, newer: Grouping)
    requires Grouped(newer) && Lookup(newer, e.base) == []
    ensures NewKeys(SetEntry(d, e), newer) == NewKeys(d, newer)
    decreases newer
  {
    if newer != [] {
      SetLookup(d, e, newer[0].base);
      NewKeysAfterSet(d, e, newer[1..]);
    }
  }

  lemma NewKeysHead(d: Grouping, newer: Grouping)
    requires newer != []
    ensures NewKeys(d, newer) == (if Lookup(d, newer[0].base) == [] then [newer[0].base] else []) + NewKeys(d, newer[1..])
  {
  }

  /** Known bases keep their places and new ones follow in their own order. */
  lemma {:induction false} OverrideKeys(d: Grouping, newer: Grouping)
    requires Grouped(d) && Grouped(newer)
    ensures Keys(Override(d, newer)) == Keys(d) + NewKeys(d, newer)
    decreases newer
  {
    if newer == [] {
      assert Keys(d) + [] == Keys(d);
    } else {
      SetKeys(d, newer[0]);
      SetGrouped(d, newer[0]);
      OverrideKeys(SetEntry(d, newer[0]), newer[1..]);
      NewKeysAfterSet(d, newer[0], newer[1..]);
      NewKeysHead(d, newer);
      ConcatThree(Keys(d), if Lookup(d, newer[0].base) == [] then [newer[0].base] else [], NewKeys(d, newer[1..]));
    }
  }

  // ----- Merging lists -----

  function Merge(older: seq<Path>, newer: seq<Path>): seq<Path> {
    Flatten(Override(Group(older), Group(newer)))
  }

  method MergeVfpLists(older: seq<Path>, newer: seq<Path>) returns (merged: seq<Path>)
    ensures merged == Merge(older, newer)
  {
    var olderByBase := SplitByBase(older);
    var newerByBase := SplitByBase(newer);
    var rest := newerByBase;
    while rest != []
      invariant Override(olderByBase, rest) == Override(Group(older), Group(newer))
      decreases rest
    {
      olderByBase, rest := SetEntry(olderByBase, rest[0]), rest[1..];
    }
    merged := Flatten(olderByBase);
  }

  /** Grouping a merged list gives the overridden dictionary back. */
  lemma GroupMerge(a: seq<Path>, b: seq<Path>)
    ensures Grouped(Group(a)) && Grouped(Group(b)) && Group(Merge(a, b)) == Override(Group(a), Group(b))
  {
    GroupIsGrouped(a, "");
    GroupIsGrouped(b, "");
    OverrideGrouped(Group(a), Group(b));
    GroupFlatten(Override(Group(a), Group(b)));
  }

  /** Per base, the newer paths replace the older ones, if there are any. */
  lemma MergeByBase(a: seq<Path>, b: seq<Path>, base: Path)
    ensures WithBase(Merge(a, b), base) == if WithBase(b, base) != [] then WithBase(b, base) else WithBase(a, base)
  {
    GroupMerge(a, b);
    GroupIsGrouped(a, base);
    GroupIsGrouped(b, base);
    GroupIsGrouped(Merge(a, b), base);
    OverrideLookup(Group(a), Group(b), base);
  }

  /** The bases of a merged list: those of the older list, then the ones that are new. */
  lemma {:induction false} MergeBases(a: seq<Path>, b: seq<Path>)
    ensures Keys(Group(Merge(a, b))) == Keys(Group(a)) + NewKeys(Group(a), Group(b))
  {
    GroupMerge(a, b);
    OverrideKeys(Group(a), Group(b));
  }

  lemma MergeAssociative(a: seq<Path>, b: seq<Path>, c: seq<Path>)
    ensures Merge(Merge(a, b), c) == Merge(a, Merge(b, c))
  {
    GroupMerge(a, b);
    GroupMerge(b, c);
    OverrideAssociative(Group(a), Group(b), Group(c));
  }

  /** Merging the same list once more changes nothing. */
  lemma MergeAgain(a: seq<Path>, b: seq<Path>)
    ensures Merge(Merge(a, b), b) == Merge(a, b)
  {
    MergeAssociative(a, b, b);
    GroupMerge(b, b);
    assert [] + Group(b) == Group(b);
    OverrideSame(Group(b), [], Group(b));
  }

  // ----- When a list is as merging would leave it -----

  /** Paths with the same base stand next to each other. */
  predicate Contiguous(paths: seq<Path>) {
    forall i, j, k :: 0 <= i < j < k < |paths| && Base(paths[i]) == Base(paths[k]) ==> Base(paths[j]) == Base(paths[i])
  }

  lemma {:induction false} FlattenConcat(d: Grouping, e: Grouping)
    ensures Flatten(d + e) == Flatten(d) + Flatten(e)
  {
    if d == [] {
      assert d + e == e;
    } else {
      ConcatTail(d, e);
      FlattenConcat(d[1..], e);
      ConcatThree(d[0].paths, Flatten(d[1..]), Flatten(e));
    }
  }

  lemma {:induction false} FlattenLookup(d: Grouping, p: Path)
    requires Grouped(d) && p in Flatten(d)
    ensures Lookup(d, Base(p)) != []
  {
    if p !in d[0].paths {
      FlattenLookup(d[1..], p);
    }
  }

  lemma {:induction false} LookupFlatten(d: Grouping, base: Path) returns (p: Path)
    requires Grouped(d) && Lookup(d, base) != []
    ensures p in Flatten(d) && Base(p) == base
  {
    if d[0].base == base {
      p := d[0].paths[0];
    } else {
      p := LookupFlatten(d[1..], base);
    }
  }

  lemma {:induction false} FlattenedIsContiguous(d: Grouping)
    requires Grouped(d)
    ensures Contiguous(Flatten(d))
  {
    if d != [] {
      FlattenedIsContiguous(d[1..]);
      var first, rest := d[0].paths, Flatten(d[1..]);
      forall i, j, k | 0 <= i < j < k < |first + rest| && Base((first + rest)[i]) == Base((first + rest)[k])
        ensures Base((first + rest)[j]) == Base((first + rest)[i])
      {
        if i < |first| <= k {
          FlattenLookup(d[1..], rest[k - |first|]);
        }
      }
    }
  }

  /** In a contiguous list that ends in a known base, the last entry has that base. */
  lemma LastHasBase(front: Grouping, last: Entry, p: Path)
    requires Grouped(front + [last]) && Lookup(front + [last], Base(p)) != []
    requires Contiguous(Flatten(front + [last]) + [p])
    ensures last.base == Base(p)
  {
    var d := front + [last];
    GroupedParts(front, [last]);
    FlattenConcat(front, [last]);
    assert Flatten([last]) == last.paths;
    var flat := Flatten(d) + [p];
    var q := LookupFlatten(d, Base(p));
    var i :| 0 <= i < |Flatten(d)| && Flatten(d)[i] == q;
    assert flat[i] == q && flat[|flat| - 1] == p;
    EndOfFlat(Flatten(front), last.paths, p);
    EndIsContiguous(flat, i);
  }

  lemma EndOfFlat(before: seq<Path>, paths: seq<Path>, p: Path)
    requires paths != []
    ensures var flat := (before + paths) + [p]; flat[|flat| - 2] == paths[|paths| - 1]
  {
  }

  lemma EndIsContiguous(flat: seq<Path>, i: nat)
    requires Contiguous(flat) && i < |flat| - 1 && Base(flat[i]) == Base(flat[|flat| - 1])
    ensures Base(flat[|flat| - 2]) == Base(flat[|flat| - 1])
  {
  }

  lemma FlattenSnoc(d: Grouping, e: Entry)
    ensures Flatten(d + [e]) == Flatten(d) + e.paths
  {
    FlattenConcat(d, [e]);
    assert [e][1..] == [] && Flatten([e]) == e.paths + Flatten([e][1..]);
  }

  lemma FlattenLonger(d: Grouping, e: Entry, p: Path)
    ensures Flatten(d + [Entry(e.base, e.paths + [p])]) == Flatten(d + [e]) + [p]
  {
    FlattenSnoc(d, e);
    FlattenSnoc(d, Entry(e.base, e.paths + [p]));
    assert Flatten(d) + e.paths + [p] == Flatten(d) + (e.paths + [p]);
  }

  /** A path added where its base was last seen goes to the end. */
  lemma AddPathFlatten(d: Grouping, p: Path)
    requires Grouped(d) && Contiguous(Flatten(d) + [p])
    ensures Flatten(AddPath(d, p)) == Flatten(d) + [p]
  {
    if Lookup(d, Base(p)) == [] {
      AddPathAtEnd(d, Entry(Base(p), []), p);
      FlattenSnoc(d, Entry(Base(p), [p]));
    } else {
      var front, last := Front(d), d[|d| - 1];
      assert d == front + [last];
      LastHasBase(front, last, p);
      GroupedParts(front, [last]);
      AddPathAtEnd(front, last, p);
      FlattenLonger(front, last, p);
    }
  }

  lemma {:induction false} AddAllFlatten(d: Grouping, paths: seq<Path>)
    requires Grouped(d) && Contiguous(Flatten(d) + paths)
    ensures Flatten(AddAll(d, paths)) == Flatten(d) + paths
    decreases paths
  {
    if paths != [] {
      assert Flatten(d) + paths == Flatten(d) + [paths[0]] + paths[1..];
      ContiguousPrefix(Flatten(d) + [paths[0]], paths[1..]);
      AddPathFlatten(d, paths[0]);
      AddPathGrouped(d, paths[0]);
      AddAllFlatten(AddPath(d, paths[0]), paths[1..]);
    }
  }

  lemma ContiguousPrefix(a: seq<Path>, b: seq<Path>)
    requires Contiguous(a + b)
    ensures Contiguous(a)
  {
    forall i, j, k | 0 <= i < j < k < |a| && Base(a[i]) == Base(a[k])
      ensures Base(a[j]) == Base(a[i])
    {
      assert (a + b)[i] == a[i] && (a + b)[j] == a[j] && (a + b)[k] == a[k];
    }
  }

  /** Grouping leaves a list as it is exactly if paths with the same base stand together. */
  lemma GroupedListIff(paths: seq<Path>)
    ensures Flatten(Group(paths)) == paths <==> Contiguous(paths)
  {
    GroupIsGrouped(paths, "");
    FlattenedIsContiguous(Group(paths));
    if Contiguous(paths) {
      assert Flatten([]) + paths == paths;
      AddAllFlatten([], paths);
    }
  }

  // ----- Merging dictionaries of paths -----

  type Vfp = map<string, seq<Path>>

  function Update(newer: Vfp, older: Vfp): Vfp {
    map root | root in older.Keys + newer.Keys ::
      if root !in newer then older[root]
      else if root in older then Merge(older[root], newer[root])
      else newer[root]
  }

  method UpdateVirtualFilePath(newer: Vfp, older: Vfp) returns (updated: Vfp)
    ensures updated == Update(newer, older)
  {
    updated := older;
    var roots := newer.Keys;
    while roots != {}
      invariant roots <= newer.Keys && updated.Keys == older.Keys + (newer.Keys - roots)
      invariant forall root :: root in roots && root in older ==> updated[root] == older[root]
      invariant forall root :: root in updated && root !in roots ==> updated[root] == Update(newer, older)[root]
      decreases roots
    {
      var root :| root in roots;
      if root in updated {
        var merged := MergeVfpLists(updated[root], newer[root]);
        updated := updated[root := merged];
      } else {
        updated := updated[root := newer[root]];
      }
      roots := roots - {root};
    }
  }

  /** Updates can be combined before they are applied. */
  lemma UpdateAssociative(a: Vfp, b: Vfp, c: Vfp)
    ensures Update(c, Update(b, a)) == Update(Update(c, b), a)
  {
    forall root | root in a && root in b && root in c
      ensures Merge(Merge(a[root], b[root]), c[root]) == Merge(a[root], Merge(b[root], c[root]))
    {
      MergeAssociative(a[root], b[root], c[root]);
    }
  }

  /** An update takes effect once, except that lists stored for a new root may be reordered the second time. */
  lemma UpdateAgainIff(newer: Vfp, older: Vfp)
    ensures Update(newer, Update(newer, older)) == Update(newer, older)
       <==> forall root :: root in newer && root !in older ==> Contiguous(newer[root])
  {
    var once := Update(newer, older);
    var twice := Update(newer, once);
    assert twice.Keys == once.Keys;
    forall root | root in newer
      ensures twice[root] == once[root] <==> root in older || Contiguous(newer[root])
    {
      UpdateRootAgain(newer, older, root);
    }
    if twice != once {
      var root :| root in once && twice[root] != once[root];
      assert root in newer;
    }
  }

  lemma UpdateRootAgain(newer: Vfp, older: Vfp, root: string)
    requires root in newer
    ensures Update(newer, Update(newer, older))[root] == Update(newer, older)[root]
       <==> root in older || Contiguous(newer[root])
  {
    if root in older {
      MergeAgain(older[root], newer[root]);
    } else {
      MergeSelf(newer[root]);
      GroupedListIff(newer[root]);
    }
  }

  lemma MergeSelf(paths: seq<Path>)
    ensures Merge(paths, paths) == Flatten(Group(paths))
  {
    GroupIsGrouped(paths, "");
    assert [] + Group(paths) == Group(paths);
    OverrideSame(Group(paths), [], Group(paths));
  }

  lemma AlternatingBases(x: Path, y: Path, z: Path)
    requires Base(x) == Base(z) != Base(y)
    ensures !Contiguous([x, y, z])
  {
    var paths := [x, y, z];
    assert Base(paths[0]) == Base(paths[2]) != Base(paths[1]);
  }

  /** Three paths of a file, found alternately in two containers: a second update puts them in another order. */
  lemma SecondUpdateReorders(newer: Vfp, x: Path, y: Path, z: Path)
    requires x == "fw|a|/x" && y == "fw|b|/x" && z == "fw|a|/y"
    requires newer == map["fw" := [x, y, z]]
    ensures Update(newer, Update(newer, map[])) != Update(newer, map[])
  {
    BaseOfThree("fw", "a", "/x", x);
    BaseOfThree("fw", "b", "/x", y);
    BaseOfThree("fw", "a", "/y", z);
    assert Base(x)[3] == 'a' && Base(y)[3] == 'b';
    AlternatingBases(x, y, z);
    var older: Vfp := map[];
    assert "fw" in newer && "fw" !in older && !Contiguous(newer["fw"]);
    UpdateAgainIff(newer, older);
  }

  lemma BaseOfThree(root: string, container: string, file: string, path: Path)
    requires IsElement(root) && IsElement(container) && IsElement(file)
    requires path == root + "|" + container + "|" + file
    ensures Base(path) == root + "|" + container
  {
    assert [root, container, file][..2] == [root, container] && [root, container][..1] == [root];
    assert JoinPath([root]) == root;
    ElementsOfJoin([root, container, file]);
    assert JoinPath([root, container]) == root + "|" + container;
    assert JoinPath([root, container, file]) == root + "|" + container + "|" + file;
  }
}
