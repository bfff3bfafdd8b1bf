/** The list updates both stores commit, for any record type whose identity
    is given by `key`: `findIndex` followed by an indexed write (update),
    `filter` (delete), and `push` (create, plain concatenation). */
module EntityList {
  import opened Wrappers

  /** `x.id === id`: strict equality between an optional number and a
      number, so an entry without an id never matches. */
  predicate HasId<T>(key: T -> Option<int>, x: T, id: int) {
    key(x) == Some(id)
  }

  /** No entry of `s` carries `id`. */
  predicate NoMatch<T>(s: seq<T>, key: T -> Option<int>, id: int) {
    forall i :: 0 <= i < |s| ==> !HasId(key, s[i], id)
  }

  /** `k` is the position of the first entry of `s` that carries `id`. */
  predicate IsFirstMatch<T>(s: seq<T>, key: T -> Option<int>, id: int, k: int) {
    0 <= k < |s| && HasId(key, s[k], id) && NoMatch(s[..k], key, id)
  }

  /** `r` keeps some of the entries of `s`, in their original order. */
  ghost predicate IsSubsequence<T>(r: seq<T>, s: seq<T>)
    decreases |s|
  {
    r == [] ||
    (s != [] &&
     ((r[0] == s[0] && IsSubsequence(r[1..], s[1..])) || IsSubsequence(r, s[1..])))
  }

  /** `s.findIndex(x => x.id === id)`: the first matching position, or -1. */
  function FindIndex<T>(s: seq<T>, key: T -> Option<int>, id: int): (r: int)
    ensures r == -1 <==> NoMatch(s, key, id)
    ensures r != -1 ==> IsFirstMatch(s, key, id, r)
  {
    if |s| == 0 then -1
    else if HasId(key, s[0], id) then 0
    else
      var j := FindIndex(s[1..], key, id);
      if j == -1 then -1
      else
        assert s[..j + 1] == [s[0]] + s[1..][..j];
        j + 1
  }

  /** Reference meaning of the update commit: the first entry carrying `id`
      becomes `x`, every other entry stays; without such an entry the list
      is returned as it is. */
  function ReplaceFirst<T>(s: seq<T>, key: T -> Option<int>, id: int, x: T): (r: seq<T>)
    ensures |r| == |s|
  {
    if |s| == 0 then []
    else if HasId(key, s[0], id) then [x] + s[1..]
    else [s[0]] + ReplaceFirst(s[1..], key, id, x)
  }

  /** `s.filter(x => x.id !== id)`: every entry that does not carry `id`,
      and only those. Order is the subject of RemoveAllKeepsOrder. */
  function RemoveAll<T>(s: seq<T>, key: T -> Option<int>, id: int): (r: seq<T>)
    ensures |r| <= |s|
    ensures NoMatch(r, key, id)
    ensures forall i :: 0 <= i < |r| ==> r[i] in s
    ensures forall i :: 0 <= i < |s| && !HasId(key, s[i], id) ==> s[i] in r
  {
    if |s| == 0 then []
    else
      assert s == [s[0]] + s[1..];
      if HasId(key, s[0], id) then RemoveAll(s[1..], key, id)
      else [s[0]] + RemoveAll(s[1..], key, id)
  }

  /** Updating an id that no entry carries leaves the list unchanged. */
  lemma {:induction false} ReplaceFirstNoMatch<T>(s: seq<T>, key: T -> Option<int>, id: int, x: T)
    requires NoMatch(s, key, id)
    ensures ReplaceFirst(s, key, id, x) == s
  {
    if |s| > 0 {
      assert !HasId(key, s[0], id);
      ReplaceFirstNoMatch(s[1..], key, id, x);
    }
  }

  /** Updating replaces exactly the first entry carrying `id`: that position
      holds `x`, every other position and the length are unchanged. */
  lemma {:induction false} ReplaceFirstAtFirstMatch<T>(s: seq<T>, key: T -> Option<int>, id: int, x: T, k: int)
    requires IsFirstMatch(s, key, id, k)
    ensures ReplaceFirst(s, key, id, x) == s[k := x]
  {
    if k > 0 {
      assert !HasId(key, s[..k][0], id);
      assert s[1..][..k - 1] == s[..k][1..];
      ReplaceFirstAtFirstMatch(s[1..], key, id, x, k - 1);
    }
  }

  /** The source's update commit (find the index, write there if it is not
      -1) computes exactly ReplaceFirst. */
  lemma {:induction false} WriteAtFindIndex<T>(s: seq<T>, key: T -> Option<int>, id: int, x: T)
    ensures (var k := FindIndex(s, key, id); if k == -1 then s else s[k := x]) == ReplaceFirst(s, key, id, x)
  {
    var k := FindIndex(s, key, id);
    if k == -1 {
      ReplaceFirstNoMatch(s, key, id, x);
    } else {
      ReplaceFirstAtFirstMatch(s, key, id, x, k);
    }
  }

  /** Deleting an id that no entry carries leaves the list unchanged. */
  lemma {:induction false} RemoveAllNoMatch<T>(s: seq<T>, key: T -> Option<int>, id: int)
    requires NoMatch(s, key, id)
    ensures RemoveAll(s, key, id) == s
  {
    if |s| > 0 {
      assert !HasId(key, s[0], id);
      RemoveAllNoMatch(s[1..], key, id);
    }
  }

  /** Deleting the same id twice is the same as deleting it once. */
  lemma {:induction false} RemoveAllIdempotent<T>(s: seq<T>, key: T -> Option<int>, id: int)
    ensures RemoveAll(RemoveAll(s, key, id), key, id) == RemoveAll(s, key, id)
  {
    RemoveAllNoMatch(RemoveAll(s, key, id), key, id);
  }

  /** The filter works entry by entry: filtering a concatenation is the
      concatenation of the filtered parts. */
  lemma {:induction false} RemoveAllAppend<T>(a: seq<T>, b: seq<T>, key: T -> Option<int>, id: int)
    ensures RemoveAll(a + b, key, id) == RemoveAll(a, key, id) + RemoveAll(b, key, id)
  {
    if |a| > 0 {
      assert (a + b)[1..] == a[1..] + b;
      RemoveAllAppend(a[1..], b, key, id);
    } else {
      assert a + b == b;
    }
  }

  /** The survivors of a delete keep their relative order. */
  lemma {:induction false} RemoveAllKeepsOrder<T>(s: seq<T>, key: T -> Option<int>, id: int)
    ensures IsSubsequence(RemoveAll(s, key, id), s)
  {
    if |s| > 0 {
      RemoveAllKeepsOrder(s[1..], key, id);
      var r := RemoveAll(s, key, id);
      if !HasId(key, s[0], id) {
        assert r[0] == s[0] && r[1..] == RemoveAll(s[1..], key, id);
      }
    }
  }

  /** Deleting the id of an entry just appended (create) removes it again,
      and an appended entry without that id survives at the end. */
  lemma {:induction false} RemoveAllAfterPush<T>(s: seq<T>, x: T, key: T -> Option<int>, id: int)
    ensures RemoveAll(s + [x], key, id) ==
            if HasId(key, x, id) then RemoveAll(s, key, id) else RemoveAll(s, key, id) + [x]
  {
    RemoveAllAppend(s, [x], key, id);
    assert RemoveAll([x], key, id) == if HasId(key, x, id) then [] else [x];
  }

  /** Updating the id of an entry just appended (create), when no older entry
      carries it, replaces that last entry. */
  lemma {:induction false} ReplaceFirstAfterPush<T>(s: seq<T>, x: T, key: T -> Option<int>, id: int, y: T)
    requires NoMatch(s, key, id) && HasId(key, x, id)
    ensures ReplaceFirst(s + [x], key, id, y) == s + [y]
  {
    assert (s + [x])[..|s|] == s;
    ReplaceFirstAtFirstMatch(s + [x], key, id, y, |s|);
    assert (s + [x])[|s| := y] == s + [y];
  }
}
