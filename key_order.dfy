/**
 * Checking a fixed list of keys against a mapping one after the other and
 * stopping at the first absent one, as both triggers do for their required
 * parameters and configuration fields.
 */
module KeyOrder {
  import opened Wrappers

  /** Every key of `keys` is present in `m`. */
  predicate AllPresent<V>(keys: seq<string>, m: map<string, V>)
  {
    forall i :: 0 <= i < |keys| ==> keys[i] in m
  }

  /** The first of `keys` missing from `m`. */
  function FirstMissing<V>(keys: seq<string>, m: map<string, V>): (r: Option<string>)
    ensures r.None? <==> AllPresent(keys, m)
    ensures r.Some? ==> exists i :: 0 <= i < |keys| && keys[i] == r.value && keys[i] !in m && AllPresent(keys[..i], m)
  {
    if keys == [] then None
    else if keys[0] !in m then
      assert keys[..0] == [];
      Some(keys[0])
    else
      var r := FirstMissing(keys[1..], m);
      if r.Some? then
        var i :| 0 <= i < |keys[1..]| && keys[1..][i] == r.value && keys[1..][i] !in m && AllPresent(keys[1..][..i], m);
        assert keys[..i + 1] == [keys[0]] + keys[1..][..i];
        r
      else
        assert forall i :: 1 <= i < |keys| ==> keys[i] == keys[1..][i - 1];
        r
  }

  /** With the keys before `keys[k]` present and `keys[k]` absent, `keys[k]` is the one reported. */
  lemma {:induction false} FirstMissingIsFirst<V>(keys: seq<string>, m: map<string, V>, k: nat)
    requires k < |keys| && AllPresent(keys[..k], m) && keys[k] !in m
    ensures FirstMissing(keys, m) == Some(keys[k])
    decreases k
  {
    if k > 0 {
      assert keys[0] == keys[..k][0];
      assert keys[1..][..k - 1] == keys[..k][1..];
      FirstMissingIsFirst(keys[1..], m, k - 1);
    }
  }

  /** For two keys, the first is reported before the second. */
  lemma FirstMissingOfTwo<V>(a: string, b: string, m: map<string, V>)
    ensures FirstMissing([a, b], m) ==
      (if a !in m then Some(a) else if b !in m then Some(b) else None)
  {
    var tail := [a, b][1..];
    assert tail == [b] && tail[1..] == [];
    assert FirstMissing(tail[1..], m) == None;
    assert FirstMissing(tail, m) == (if b !in m then Some(b) else None);
  }
}
