/** `render.py`: writing a rendered tree to a directory, and comparing a directory with one. */
module RenderedFiles {
  import opened Records
  import opened Dicts

  /** The files below a destination, by relative path. */
  class Directory {
    var files: map<string, string>

    constructor ()
      ensures files == map[]
    {
      files := map[];
    }
  }

  /** What a directory holds after a tree is written over it. */
  function Overwritten(files: map<string, string>, tree: Tree): map<string, string> {
    files + FromPairs(tree)
  }

  /** `write_tree`. */
  method WriteTree(tree: Tree, d: Directory)
    modifies d
    ensures d.files == Overwritten(old(d.files), tree)
  {
    for i := 0 to |tree|
      invariant d.files == Overwritten(old(d.files), tree[..i])
    {
      assert tree[..i + 1][..i] == tree[..i];
      d.files := d.files[tree[i].0 := tree[i].1];
    }
    assert tree[..|tree|] == tree;
  }

  /** What `read_text` makes of a text: every line break, in whichever of the three spellings, is one
      newline. Writing translates nothing. */
  function Newlines(text: string): string {
    if text == "" then ""
    else if text[0] == '\r' then "\n" + Newlines(text[if |text| > 1 && text[1] == '\n' then 2 else 1..])
    else [text[0]] + Newlines(text[1..])
  }

  lemma {:induction false} NewlinesHaveNoReturn(text: string)
    ensures '\r' !in Newlines(text)
    ensures Newlines(text) == text <==> '\r' !in text
  {
    if text != "" {
      if text[0] == '\r' {
        NewlinesHaveNoReturn(text[if |text| > 1 && text[1] == '\n' then 2 else 1..]);
      } else {
        NewlinesHaveNoReturn(text[1..]);
        assert text == [text[0]] + text[1..];
      }
    }
  }

  /** The files as a reader sees them. */
  function AsRead(files: map<string, string>): map<string, string> {
    map path | path in files :: Newlines(files[path])
  }

  datatype Drifted = Missing(path: string) | Differs(path: string) | Unexpected(path: string)

  /** No path is rendered twice with two texts. */
  predicate Consistent(tree: Tree) {
    forall i, j :: 0 <= i < j < |tree| && tree[i].0 == tree[j].0 ==> tree[i].1 == tree[j].1
  }

  predicate Holds(files: map<string, string>, file: (string, string)) {
    file.0 in files && files[file.0] == file.1
  }

  predicate DriftAt(x: Drifted, tree: Tree, files: map<string, string>) {
    match x
    case Missing(path) => path !in files && exists f :: f in tree && f.0 == path
    case Differs(path) => path in files && exists f :: f in tree && f.0 == path && files[path] != f.1
    case Unexpected(path) => path in files && path !in FromPairs(tree)
  }

  /** The files, as they are read, are the tree, and the tree does not contradict itself. */
  predicate Undrifted(tree: Tree, files: map<string, string>) {
    AsRead(files) == FromPairs(tree) && Consistent(tree)
  }

  /** `differences`: it names every path that drifted, in whichever way, and nothing else; and it is
      silent exactly when the files read as the tree. */
  method Differences(tree: Tree, d: Directory) returns (drifted: seq<Drifted>)
    ensures forall x :: x in drifted <==> DriftAt(x, tree, AsRead(d.files))
    ensures drifted == [] <==> Undrifted(tree, d.files)
  {
    ghost var read := AsRead(d.files);
    var rendered, order := Build(tree);
    var wrong := RenderedDrift(tree, d.files);
    var extra := UnexpectedDrift(d.files, rendered);
    drifted := wrong + extra;
    if (forall f :: f in tree ==> Holds(read, f)) && read.Keys <= rendered.Keys {
      HeldIsRendered(tree, read);
    }
    if Undrifted(tree, d.files) {
      ConsistentIsHeld(tree);
    }
  }

  method RenderedDrift(tree: Tree, files: map<string, string>) returns (drifted: seq<Drifted>)
    ensures forall x :: x in drifted <==> !x.Unexpected? && DriftAt(x, tree, AsRead(files))
    ensures drifted == [] <==> forall f :: f in tree ==> Holds(AsRead(files), f)
  {
    ghost var read := AsRead(files);
    drifted := [];
    for i := 0 to |tree|
      invariant forall x :: x in drifted <==> !x.Unexpected? && DriftAt(x, tree[..i], read)
      invariant drifted == [] <==> forall f :: f in tree[..i] ==> Holds(read, f)
    {
      assert tree[..i + 1] == tree[..i] + [tree[i]];
      var (path, text) := tree[i];
      assert tree[i] in tree[..i + 1] && (Holds(read, tree[i]) <==> path in read && read[path] == text);
      assert forall f :: f in tree[..i] ==> f in tree[..i + 1];
      if path !in files {
        drifted := drifted + [Missing(path)];
      } else if Newlines(files[path]) != text {
        drifted := drifted + [Differs(path)];
      }
    }
    assert tree[..|tree|] == tree;
  }

  method UnexpectedDrift(files: map<string, string>, rendered: map<string, string>) returns (drifted: seq<Drifted>)
    ensures forall x :: x in drifted <==> x.Unexpected? && x.path in files && x.path !in rendered
    ensures drifted == [] <==> files.Keys <= rendered.Keys
  {
    drifted := [];
    var rest, done := files.Keys, {};
    while rest != {}
      invariant done !! rest && done + rest == files.Keys
      invariant forall x :: x in drifted <==> x.Unexpected? && x.path in done && x.path !in rendered
      invariant drifted == [] <==> done <= rendered.Keys
      decreases |rest|
    {
      var path :| path in rest;
      if path !in rendered {
        drifted := drifted + [Unexpected(path)];
      }
      rest, done := rest - {path}, done + {path};
    }
    assert done == files.Keys;
  }

  /** A directory that holds every rendered file and no other path is the tree. */
  lemma {:induction false} HeldIsRendered(tree: Tree, files: map<string, string>)
    requires forall f :: f in tree ==> Holds(files, f)
    requires files.Keys <= FromPairs(tree).Keys
    ensures files == FromPairs(tree) && Consistent(tree)
  {
    OrderIsKeys(tree);
    forall k | k in FromPairs(tree) ensures k in files && files[k] == FromPairs(tree)[k] {
      LastValue(tree, k);
    }
    assert forall i :: 0 <= i < |tree| ==> Holds(files, tree[i]);
  }

  lemma {:induction false} LastValue(tree: Tree, k: string)
    requires k in FromPairs(tree)
    ensures (k, FromPairs(tree)[k]) in tree
  {
    var last := tree[|tree| - 1];
    if last.0 != k {
      LastValue(tree[..|tree| - 1], k);
    }
  }

  lemma ConsistentIsHeld(tree: Tree)
    requires Consistent(tree)
    ensures forall f :: f in tree ==> Holds(FromPairs(tree), f)
  {
    OrderIsKeys(tree);
    forall f | f in tree ensures Holds(FromPairs(tree), f) {
      var i :| 0 <= i < |tree| && tree[i] == f;
      LastValue(tree, f.0);
      var j :| 0 <= j < |tree| && tree[j] == (f.0, FromPairs(tree)[f.0]);
    }
  }

  predicate Returnless(tree: Tree) {
    forall f :: f in tree ==> '\r' !in f.1
  }

  /** Write, then compare: there is no drift exactly when nothing in the directory was outside the tree,
      the tree does not contradict itself, and no rendered text holds a carriage return. */
  lemma WrittenShowsNoDrift(before: map<string, string>, tree: Tree)
    ensures Undrifted(tree, Overwritten(before, tree))
       <==> before.Keys <= FromPairs(tree).Keys && Consistent(tree) && Returnless(tree)
  {
    var after := Overwritten(before, tree);
    assert after.Keys == before.Keys + FromPairs(tree).Keys == AsRead(after).Keys;
    if before.Keys <= FromPairs(tree).Keys && Consistent(tree) && Returnless(tree) {
      forall k | k in after ensures k in FromPairs(tree) && AsRead(after)[k] == FromPairs(tree)[k] {
        LastValue(tree, k);
        NewlinesHaveNoReturn(after[k]);
      }
    }
    if Undrifted(tree, after) {
      ConsistentIsHeld(tree);
      forall f | f in tree ensures '\r' !in f.1 {
        assert Holds(FromPairs(tree), f);
        NewlinesHaveNoReturn(after[f.0]);
      }
    }
  }

  /** A rendered text that holds a carriage return is reported as differing right after it is written. */
  lemma ReturnDriftsAtOnce(before: map<string, string>, tree: Tree, file: (string, string))
    requires file in tree && '\r' in file.1
    ensures DriftAt(Differs(file.0), tree, AsRead(Overwritten(before, tree)))
  {
    var i :| 0 <= i < |tree| && tree[i] == file;
    OrderIsKeys(tree);
    NewlinesHaveNoReturn(Overwritten(before, tree)[file.0]);
  }

  /** The text with every newline in two characters. */
  function Dos(text: string): string {
    if text == "" then "" else (if text[0] == '\n' then "\r\n" else [text[0]]) + Dos(text[1..])
  }

  lemma {:induction false} DosReadsBack(text: string)
    requires '\r' !in text
    ensures Newlines(Dos(text)) == text
  {
    if text != "" {
      DosReadsBack(text[1..]);
      var rest := Dos(text[1..]);
      if text[0] == '\n' {
        assert ("\r\n" + rest)[2..] == rest;
      } else {
        assert ([text[0]] + rest)[1..] == rest;
      }
    }
  }

  function DosCopy(tree: Tree): map<string, string> {
    map path | path in FromPairs(tree) :: Dos(FromPairs(tree)[path])
  }

  /** A copy whose every line ends in two characters shows no drift, though its bytes are not the tree's
      as soon as a text has a line. */
  lemma DosCopyShowsNoDrift(tree: Tree)
    requires Consistent(tree) && Returnless(tree)
    ensures Undrifted(tree, DosCopy(tree))
    ensures (exists f :: f in tree && '\n' in f.1) ==> DosCopy(tree) != FromPairs(tree)
  {
    forall k | k in FromPairs(tree) ensures AsRead(DosCopy(tree))[k] == FromPairs(tree)[k] {
      LastValue(tree, k);
      DosReadsBack(FromPairs(tree)[k]);
    }
    ConsistentIsHeld(tree);
    forall f | f in tree && '\n' in f.1 ensures DosCopy(tree)[f.0] != FromPairs(tree)[f.0] {
      assert Holds(FromPairs(tree), f);
      DosHasReturn(f.1);
    }
  }

  lemma {:induction false} DosHasReturn(text: string)
    ensures '\n' in text ==> '\r' in Dos(text)
  {
    if text != "" {
      DosHasReturn(text[1..]);
    }
  }
}
