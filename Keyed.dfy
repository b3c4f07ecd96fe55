/** Record lists keyed by a string id, updated the way every handler of the
    console does it: `list.map(x => x.id === id ? f(x) : x)` to change the
    matching records and `list.filter(x => x.id !== id)` to drop them. The
    key is a parameter, so each record type passes its own `id` selector.
    Ids are not assumed unique: every record with the id is affected. */
module Keyed {
  import opened Wrappers
  import opened Seqs

  /** `map(x => key(x) === id ? f(x) : x)`. */
  function UpdateWhere<T>(s: seq<T>, key: T -> string, id: string, f: T -> T): (r: seq<T>)
    ensures |r| == |s|
    ensures forall i :: 0 <= i < |s| ==> r[i] == if key(s[i]) == id then f(s[i]) else s[i]
    decreases |s|
  {
    if s == [] then []
    else [if key(s[0]) == id then f(s[0]) else s[0]] + UpdateWhere(s[1..], key, id, f)
  }

  /** The predicate `x => key(x) !== id`. */
  function LacksKey<T>(key: T -> string, id: string): T -> bool
  {
    x => key(x) != id
  }

  /** `filter(x => key(x) !== id)`. */
  function RemoveKey<T(==,!new)>(s: seq<T>, key: T -> string, id: string): (r: seq<T>)
    ensures IsSubseq(r, s)
    ensures forall x :: x in r <==> x in s && key(x) != id
    ensures (forall i :: 0 <= i < |s| ==> key(s[i]) != id) ==> r == s
  {
    Filter(s, LacksKey(key, id))
  }

  /** The function `_ => x`, for replacing a record wholesale. */
  function Always<T>(x: T): T -> T
  {
    _ => x
  }

  /** `map(y => y.id === x.id ? x : y)`. */
  function ReplaceKey<T>(s: seq<T>, key: T -> string, x: T): (r: seq<T>)
    ensures |r| == |s|
    ensures forall i :: 0 <= i < |s| ==> r[i] == if key(s[i]) == key(x) then x else s[i]
  {
    UpdateWhere(s, key, key(x), Always(x))
  }

  /** An update that keeps the key and undoes itself, applied twice, changes nothing. */
  lemma UpdateInvolutive<T>(s: seq<T>, key: T -> string, id: string, f: T -> T)
    requires forall x :: key(x) == id ==> key(f(x)) == id && f(f(x)) == x
    ensures UpdateWhere(UpdateWhere(s, key, id, f), key, id, f) == s
  {
    var r := UpdateWhere(UpdateWhere(s, key, id, f), key, id, f);
    assert forall i :: 0 <= i < |s| ==> r[i] == s[i];
  }

  /** An update that keeps the key and is idempotent on one record is idempotent on the list. */
  lemma UpdateIdempotent<T>(s: seq<T>, key: T -> string, id: string, f: T -> T)
    requires forall x :: key(x) == id ==> key(f(x)) == id && f(f(x)) == f(x)
    ensures UpdateWhere(UpdateWhere(s, key, id, f), key, id, f) == UpdateWhere(s, key, id, f)
  {
    var u := UpdateWhere(s, key, id, f);
    var r := UpdateWhere(u, key, id, f);
    assert forall i :: 0 <= i < |s| ==> r[i] == u[i];
  }

  /** Two updates of the same key compose into one. */
  lemma UpdateCompose<T>(s: seq<T>, key: T -> string, id: string, f: T -> T, g: T -> T, h: T -> T)
    requires forall x :: key(x) == id ==> key(f(x)) == id && g(f(x)) == h(x)
    ensures UpdateWhere(UpdateWhere(s, key, id, f), key, id, g) == UpdateWhere(s, key, id, h)
  {
    var r := UpdateWhere(UpdateWhere(s, key, id, f), key, id, g);
    var t := UpdateWhere(s, key, id, h);
    assert forall i :: 0 <= i < |s| ==> r[i] == t[i];
  }

  /** An update of an id that no record carries changes nothing. */
  lemma UpdateAbsent<T>(s: seq<T>, key: T -> string, id: string, f: T -> T)
    requires forall i :: 0 <= i < |s| ==> key(s[i]) != id
    ensures UpdateWhere(s, key, id, f) == s
  {
    var r := UpdateWhere(s, key, id, f);
    assert forall i :: 0 <= i < |s| ==> r[i] == s[i];
  }

  /** When exactly one record, at index i, carries the id, a count by `q`
      after the update differs from the count before only by that record. */
  lemma {:induction false} UpdateOneCount<T(!new)>(s: seq<T>, key: T -> string, id: string, f: T -> T, q: T -> bool, i: nat)
    requires i < |s| && key(s[i]) == id
    requires forall j :: 0 <= j < |s| && j != i ==> key(s[j]) != id
    ensures |Filter(UpdateWhere(s, key, id, f), q)|
         == |Filter(s, q)| - (if q(s[i]) then 1 else 0) + (if q(f(s[i])) then 1 else 0)
  {
    var u := UpdateWhere(s, key, id, f);
    var pre, post := s[..i], s[i + 1..];
    assert s == pre + [s[i]] + post;
    assert u == pre + [f(s[i])] + post;
    FilterAppend(pre + [s[i]], post, q);
    FilterAppend(pre, [s[i]], q);
    FilterAppend(pre + [f(s[i])], post, q);
    FilterAppend(pre, [f(s[i])], q);
    assert [s[i]][1..] == [] && [f(s[i])][1..] == [];
  }

  /** A first match in the tail, behind a head that does not match, is a first match of the whole. */
  lemma FindInTail<T>(s: seq<T>, key: T -> string, id: string, r: Option<T>)
    requires s != [] && key(s[0]) != id
    requires r.None? <==> forall i :: 0 <= i < |s[1..]| ==> key(s[1..][i]) != id
    requires r.Some? ==> exists i :: 0 <= i < |s[1..]| && s[1..][i] == r.value && key(r.value) == id
                                     && forall j :: 0 <= j < i ==> key(s[1..][j]) != id
    ensures r.None? <==> forall i :: 0 <= i < |s| ==> key(s[i]) != id
    ensures r.Some? ==> exists i :: 0 <= i < |s| && s[i] == r.value && key(r.value) == id
                                    && forall j :: 0 <= j < i ==> key(s[j]) != id
  {
    assert forall i :: 0 < i < |s| ==> s[1..][i - 1] == s[i];
    if r.Some? {
      var k :| 0 <= k < |s[1..]| && s[1..][k] == r.value && key(r.value) == id
               && forall j :: 0 <= j < k ==> key(s[1..][j]) != id;
      assert s[k + 1] == r.value;
      forall j | 0 <= j < k + 1
        ensures key(s[j]) != id
      {
        if j > 0 {
          assert s[j] == s[1..][j - 1];
        }
      }
    }
  }

  /** `find(x => key(x) === id)`: the first record with the id, if any. */
  function FindKey<T>(s: seq<T>, key: T -> string, id: string): (r: Option<T>)
    ensures r.None? <==> forall i :: 0 <= i < |s| ==> key(s[i]) != id
    ensures r.Some? ==> exists i :: 0 <= i < |s| && s[i] == r.value && key(r.value) == id
                                    && forall j :: 0 <= j < i ==> key(s[j]) != id
    decreases |s|
  {
    if s == [] then None
    else if key(s[0]) == id then Some(s[0])
    else
      var r := FindKey(s[1..], key, id);
      FindInTail(s, key, id, r);
      r
  }
}
