/** The note parser: a wave's free-text note becomes a key/value map. */
module Notes {
  import opened Text

  /** A token that contributes a pair: it holds exactly one `=`. */
  predicate IsPair(t: string)
  {
    '=' in t && Count(t, '=') == 1
  }

  function KeyOf(t: string): string
    requires '=' in t
  {
    t[..IndexOf(t, '=')]
  }

  function ValueOf(t: string): string
    requires '=' in t
  {
    t[IndexOf(t, '=') + 1..]
  }

  /** The map built by visiting `tokens` in order and storing the two pieces of every token
      whose `split("=")` has length two. */
  function NotesOf(tokens: seq<string>): map<string, string>
  {
    if tokens == [] then map[]
    else
      var notes := NotesOf(tokens[..|tokens| - 1]);
      var split := Pieces(tokens[|tokens| - 1], '=');
      if |split| == 2 then notes[split[0] := split[1]] else notes
  }

  /** Token `j` is a pair with key `k`. */
  predicate PairAt(tokens: seq<string>, j: int, k: string)
  {
    0 <= j < |tokens| && IsPair(tokens[j]) && KeyOf(tokens[j]) == k
  }

  /** Token `j` is the last pair with key `k`. */
  predicate LastPairAt(tokens: seq<string>, j: int, k: string)
  {
    PairAt(tokens, j, k) && forall j' :: j < j' < |tokens| ==> !PairAt(tokens, j', k)
  }

  /** One more token stores its pieces exactly when it is a pair. */
  lemma NotesOfStep(tokens: seq<string>)
    requires tokens != []
    ensures var t := tokens[|tokens| - 1];
      NotesOf(tokens) ==
        if IsPair(t) then NotesOf(tokens[..|tokens| - 1])[KeyOf(t) := ValueOf(t)]
        else NotesOf(tokens[..|tokens| - 1])
  {
    PiecesTwo(tokens[|tokens| - 1], '=');
  }

  /** The parsed map holds a key exactly when some token is a pair with that key, and its
      value is that of the last such token. */
  lemma {:induction false} NotesOfMeaning(tokens: seq<string>)
    ensures forall k :: k in NotesOf(tokens) <==> exists j :: PairAt(tokens, j, k)
    ensures forall k :: k in NotesOf(tokens) ==>
      exists j :: LastPairAt(tokens, j, k) && ValueOf(tokens[j]) == NotesOf(tokens)[k]
  {
    if tokens != [] {
      var n := |tokens| - 1;
      var front := tokens[..n];
      var t := tokens[n];
      NotesOfMeaning(front);
      NotesOfStep(tokens);
      assert forall j, k :: PairAt(front, j, k) <==> 0 <= j < n && PairAt(tokens, j, k);
      var notes := NotesOf(tokens);
      forall k | k in notes
        ensures exists j :: LastPairAt(tokens, j, k) && ValueOf(tokens[j]) == notes[k]
      {
        if IsPair(t) && KeyOf(t) == k {
          assert LastPairAt(tokens, n, k);
        } else {
          var j :| LastPairAt(front, j, k) && ValueOf(front[j]) == NotesOf(front)[k];
          assert LastPairAt(tokens, j, k);
        }
      }
    }
  }

  /** `parse_note`: replace carriage returns by line feeds, split into whitespace tokens and
      keep the tokens that split on `=` into exactly two pieces; a later pair overwrites an
      earlier one with the same key. */
  method ParseNote(note: string) returns (notes: map<string, string>)
    ensures notes == NotesOf(Tokens(note))
    ensures forall k :: k in notes <==> exists j :: PairAt(Tokens(note), j, k)
    ensures forall k :: k in notes ==>
      exists j :: LastPairAt(Tokens(note), j, k) && ValueOf(Tokens(note)[j]) == notes[k]
  {
    var text := ReplaceCR(note);
    var words := Tokens(text);
    TokensReplaceCR(note);
    notes := map[];
    var i := 0;
    while i < |words|
      invariant 0 <= i <= |words|
      invariant notes == NotesOf(words[..i])
    {
      var split := Pieces(words[i], '=');
      if |split| == 2 {
        notes := notes[split[0] := split[1]];
      }
      assert words[..i + 1][..i] == words[..i];
      i := i + 1;
    }
    assert words[..i] == words;
    NotesOfMeaning(words);
  }
}
