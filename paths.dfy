/** The path resolver: a slash-delimited path walked through the nested folder tree of a
    packed experiment, each name tried as a string key and then as its UTF-8 bytes key. */
module Paths {
  import opened Text
  import opened Wave

  newtype byte = x: int | 0 <= x < 256

  /** Folder keys in a decoded packed experiment are text or raw bytes. */
  datatype Key = S(text: string) | B(bytes: seq<byte>)

  /** A folder maps names to sub-folders and wave records. */
  datatype Node = Folder(children: map<Key, Node>) | Leaf(wave: Wave)

  /** What a lookup gives: the object found, `None` (a missing name), or a descent below a
      wave record, on which Python's `in` raises `TypeError` (a wave record is no mapping). */
  datatype Lookup = Found(node: Node) | Missing | BelowWave

  /** UTF-8 encoding of one Unicode scalar value. */
  function EncodeChar(c: char): (r: seq<byte>)
    ensures 1 <= |r| <= 4
  {
    var n := c as int;
    if n < 0x80 then [n as byte]
    else if n < 0x800 then [(0xC0 + n / 0x40) as byte, (0x80 + n % 0x40) as byte]
    else if n < 0x1_0000 then
      [(0xE0 + n / 0x1000) as byte, (0x80 + n / 0x40 % 0x40) as byte, (0x80 + n % 0x40) as byte]
    else
      [(0xF0 + n / 0x4_0000) as byte, (0x80 + n / 0x1000 % 0x40) as byte,
       (0x80 + n / 0x40 % 0x40) as byte, (0x80 + n % 0x40) as byte]
  }

  /** `bytes(s, "utf8")`. */
  function Utf8(s: string): seq<byte>
  {
    if s == [] then [] else EncodeChar(s[0]) + Utf8(s[1..])
  }

  /** `s.split(c, 1)`: the text before the first `c` and, when there is one, the rest. */
  function SplitOnce(s: string, c: char): (keys: seq<string>)
    ensures 1 <= |keys| <= 2
    ensures |keys| == 1 <==> c !in s
    ensures |keys| == 1 ==> keys[0] == s
    ensures |keys| == 2 ==> c !in keys[0] && |keys[1]| < |s| && s == keys[0] + [c] + keys[1]
  {
    if c in s then
      var i := IndexOf(s, c);
      assert s == s[..i] + [c] + s[i + 1..];
      [s[..i], s[i + 1..]]
    else [s]
  }

  /** The key used for a name: the string itself unless only its bytes are present. */
  function KeyFor(dic: map<Key, Node>, name: string): Key
  {
    if S(name) !in dic && B(Utf8(name)) in dic then B(Utf8(name)) else S(name)
  }

  /** `iterate_dictionary(dic, path)`. */
  function Resolve(dic: map<Key, Node>, path: string): Lookup
    decreases |path|
  {
    var keys := SplitOnce(path, '/');
    var key := KeyFor(dic, keys[0]);
    if key !in dic then Missing
    else if |keys| == 1 then Found(dic[key])
    else
      match dic[key]
      case Leaf(_) => BelowWave
      case Folder(children) => Resolve(children, keys[1])
  }

  /** Reference walk: visit the names one after another, from the top folder down. */
  function Walk(dic: map<Key, Node>, names: seq<string>): Lookup
    requires names != []
    decreases |names|
  {
    var key := KeyFor(dic, names[0]);
    if key !in dic then Missing
    else if |names| == 1 then Found(dic[key])
    else
      match dic[key]
      case Leaf(_) => BelowWave
      case Folder(children) => Walk(children, names[1..])
  }

  /** Resolving a path is walking the names of `path.split("/")`: the recursion on the first
      segment and the remainder visits every segment, in order, and nothing else. */
  lemma {:induction false} ResolveIsWalk(dic: map<Key, Node>, path: string)
    ensures Resolve(dic, path) == Walk(dic, Pieces(path, '/'))
    decreases |path|
  {
    var keys := SplitOnce(path, '/');
    if '/' in path {
      PiecesFirst(path, '/');
      var i := IndexOf(path, '/');
      assert keys[0] == path[..i] && keys[1] == path[i + 1..];
      PiecesNone(keys[0], '/');
      var names := Pieces(path, '/');
      assert names[0] == keys[0] && names[1..] == Pieces(keys[1], '/');
      var key := KeyFor(dic, keys[0]);
      if key in dic && dic[key].Folder? {
        ResolveIsWalk(dic[key].children, keys[1]);
      }
    } else {
      PiecesNone(path, '/');
    }
  }

  /** A single name is looked up as a string first and as UTF-8 bytes only when the string
      key is absent; a name found under neither resolves to nothing. */
  lemma ResolveName(dic: map<Key, Node>, name: string)
    requires '/' !in name
    ensures S(name) in dic ==> Resolve(dic, name) == Found(dic[S(name)])
    ensures S(name) !in dic && B(Utf8(name)) in dic ==> Resolve(dic, name) == Found(dic[B(Utf8(name))])
    ensures S(name) !in dic && B(Utf8(name)) !in dic ==> Resolve(dic, name) == Missing
  {
  }

  /** A path with several segments resolves through the folder named by its first segment,
      is `None` when that name is missing, and fails when it names a wave. */
  lemma ResolveSegments(dic: map<Key, Node>, name: string, rest: string)
    requires '/' !in name
    ensures var key := KeyFor(dic, name);
      Resolve(dic, name + "/" + rest) ==
        if key !in dic then Missing
        else if dic[key].Leaf? then BelowWave
        else Resolve(dic[key].children, rest)
  {
    var path := name + "/" + rest;
    assert path[|name|] == '/';
    var keys := SplitOnce(path, '/');
    var i := IndexOf(path, '/');
    assert path[..|name|] == name;
    assert i == |name|;
    assert keys[0] == name && keys[1] == rest;
  }
}
