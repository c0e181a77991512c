/** The two pieces of file-name handling the single-wave mode uses: `Path(file).name` and the
    part of a name before its first dot. */
module FileNames {
  import opened Text

  /** The components `pathlib` keeps: empty ones (repeated or trailing slashes) and `.` are
      collapsed away. */
  function Components(parts: seq<string>): (r: seq<string>)
    ensures forall i :: 0 <= i < |r| ==> r[i] in parts && r[i] != "" && r[i] != "."
  {
    if parts == [] then []
    else
      var front := Components(parts[..|parts| - 1]);
      var last := parts[|parts| - 1];
      if last == "" || last == "." then front else front + [last]
  }

  /** `Path(file).name` for a POSIX path: its last component, or `""` when there is none. */
  function BaseName(file: string): (name: string)
    ensures '/' !in name
  {
    var parts := Components(Pieces(file, '/'));
    if parts == [] then "" else parts[|parts| - 1]
  }

  /** `name.split(".")[0]`. */
  function Stem(name: string): string
  {
    Pieces(name, '.')[0]
  }

  /** A last piece without the separator is split off as it is. */
  lemma {:induction false} PiecesSnoc(a: string, b: string, c: char)
    requires c !in b
    ensures Pieces(a + [c] + b, c) == Pieces(a, c) + [b]
  {
    if a == [] {
      assert a + [c] + b == [c] + b;
      assert ([c] + b)[1..] == b;
      PiecesNone(b, c);
    } else {
      assert (a + [c] + b)[1..] == a[1..] + [c] + b;
      PiecesSnoc(a[1..], b, c);
    }
  }

  /** The name of `dir/leaf` is `leaf` whenever `leaf` is a proper file name. */
  lemma BaseNameOfJoin(dir: string, leaf: string)
    requires '/' !in leaf && leaf != "" && leaf != "."
    ensures BaseName(dir + "/" + leaf) == leaf
  {
    PiecesSnoc(dir, leaf, '/');
    var all := Pieces(dir + "/" + leaf, '/');
    assert all[..|all| - 1] == Pieces(dir, '/');
  }

  /** The stem is the name up to its first dot, or the whole name when it has none. */
  lemma StemIsPrefix(name: string)
    ensures '.' !in Stem(name)
    ensures '.' in name ==> Stem(name) == name[..IndexOf(name, '.')]
    ensures '.' !in name ==> Stem(name) == name
  {
    if '.' in name {
      PiecesFirst(name, '.');
    } else {
      PiecesNone(name, '.');
    }
  }
}
