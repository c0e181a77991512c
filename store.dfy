/** The flat output stores (`self.data`, `self.attrs`): maps from composite path to value,
    filled by a sequence of writes in which a later write to a key silently replaces an
    earlier one. */
module Store {
  import opened Wrappers
  import opened Values

  /** One `store[key] = value` statement. */
  type Write = (string, Value)

  /** The store after performing `writes` in order on `m`. */
  function Apply(m: map<string, Value>, writes: seq<Write>): map<string, Value>
  {
    if writes == [] then m
    else
      var last := writes[|writes| - 1];
      Apply(m, writes[..|writes| - 1])[last.0 := last.1]
  }

  /** Three writes in a row. */
  lemma ApplyThree(m: map<string, Value>, a: Write, b: Write, c: Write)
    ensures Apply(m, [a, b, c]) == m[a.0 := a.1][b.0 := b.1][c.0 := c.1]
    ensures Keys([a, b, c]) == {a.0, b.0, c.0}
  {
    assert [a, b, c][..2] == [a, b];
    assert [a, b][..1] == [a];
    assert [a][..0] == [];
    assert Apply(m, [a]) == m[a.0 := a.1];
    assert Apply(m, [a, b]) == Apply(m, [a])[b.0 := b.1];
    assert [a, b, c][0].0 == a.0 && [a, b, c][1].0 == b.0 && [a, b, c][2].0 == c.0;
  }

  lemma ApplyOne(m: map<string, Value>, a: Write)
    ensures Apply(m, [a]) == m[a.0 := a.1]
    ensures Keys([a]) == {a.0}
  {
    assert [a][..0] == [];
    assert [a][0].0 == a.0;
  }

  /** One more write. */
  lemma ApplySnoc(m: map<string, Value>, writes: seq<Write>, a: Write)
    ensures Apply(m, writes + [a]) == Apply(m, writes)[a.0 := a.1]
  {
    assert (writes + [a])[..|writes|] == writes;
  }

  /** The value of the last write to `key`, if any. */
  function LastWrite(writes: seq<Write>, key: string): (r: Option<Value>)
    ensures r.None? <==> forall i :: 0 <= i < |writes| ==> writes[i].0 != key
    ensures r.Some? ==>
      exists i :: 0 <= i < |writes| && writes[i] == (key, r.value) &&
        forall j :: i < j < |writes| ==> writes[j].0 != key
  {
    if writes == [] then None
    else if writes[|writes| - 1].0 == key then
      assert writes[|writes| - 1] == (key, writes[|writes| - 1].1);
      Some(writes[|writes| - 1].1)
    else
      var front := writes[..|writes| - 1];
      var r := LastWrite(front, key);
      assert forall i :: 0 <= i < |front| ==> front[i] == writes[i];
      assert r.Some? ==>
        exists i :: 0 <= i < |writes| && writes[i] == (key, r.value) &&
          forall j :: i < j < |writes| ==> writes[j].0 != key
      by {
        if r.Some? {
          var i :| 0 <= i < |front| && front[i] == (key, r.value) &&
            forall j :: i < j < |front| ==> front[j].0 != key;
          assert writes[i] == (key, r.value);
        }
      }
      r
  }

  /** Writing one log and then another is writing their concatenation. */
  lemma {:induction false} ApplyConcat(m: map<string, Value>, a: seq<Write>, b: seq<Write>)
    ensures Apply(m, a + b) == Apply(Apply(m, a), b)
    decreases |b|
  {
    if b == [] {
      assert a + b == a;
    } else {
      assert (a + b)[..|a + b| - 1] == a + b[..|b| - 1];
      ApplyConcat(m, a, b[..|b| - 1]);
    }
  }

  /** Later write wins: after the writes, a key holds the value of its last write, and a key
      nobody wrote keeps its old value (or stays absent). */
  lemma {:induction false} ApplyLastWrite(m: map<string, Value>, writes: seq<Write>, key: string)
    ensures key in Apply(m, writes) <==> key in m || LastWrite(writes, key).Some?
    ensures LastWrite(writes, key).Some? ==> Apply(m, writes)[key] == LastWrite(writes, key).value
    ensures LastWrite(writes, key).None? && key in m ==> Apply(m, writes)[key] == m[key]
  {
    if writes != [] {
      ApplyLastWrite(m, writes[..|writes| - 1], key);
    }
  }

  /** The keys a log writes to. */
  function Keys(writes: seq<Write>): set<string>
  {
    set i | 0 <= i < |writes| :: writes[i].0
  }

  lemma KeysConcat(a: seq<Write>, b: seq<Write>)
    ensures Keys(a + b) == Keys(a) + Keys(b)
  {
    forall key | key in Keys(a + b)
      ensures key in Keys(a) + Keys(b)
    {
      var i :| 0 <= i < |a + b| && (a + b)[i].0 == key;
      if i >= |a| {
        assert b[i - |a|].0 == key;
      }
    }
    forall key | key in Keys(a) + Keys(b)
      ensures key in Keys(a + b)
    {
      if key in Keys(a) {
        var i :| 0 <= i < |a| && a[i].0 == key;
        assert (a + b)[i].0 == key;
      } else {
        var i :| 0 <= i < |b| && b[i].0 == key;
        assert (a + b)[|a| + i].0 == key;
      }
    }
  }

  /** Writes to other keys leave a key as it was. */
  lemma ApplyUntouched(m: map<string, Value>, writes: seq<Write>, key: string)
    requires key !in Keys(writes)
    ensures key in Apply(m, writes) <==> key in m
    ensures key in m ==> Apply(m, writes)[key] == m[key]
  {
    ApplyLastWrite(m, writes, key);
  }

  /** `key` is present after exactly when it was before, with the same value. */
  predicate Kept(before: map<string, Value>, after: map<string, Value>, key: string)
  {
    (key in after <==> key in before) && (key in before ==> after[key] == before[key])
  }

  /** The keys of the store after the writes: the old keys and every key written. */
  lemma ApplyKeys(m: map<string, Value>, writes: seq<Write>)
    ensures Apply(m, writes).Keys == m.Keys + Keys(writes)
  {
    forall key
      ensures key in Apply(m, writes) <==> key in m || key in Keys(writes)
    {
      ApplyLastWrite(m, writes, key);
      if key in Keys(writes) {
        var i :| 0 <= i < |writes| && writes[i].0 == key;
      }
    }
  }
}
