/**
 * The in-memory list of server records each domain store keeps, and the
 * array operations the stores apply to it: `findIndex`/`find` by id,
 * assignment at the found index, `push`, and `filter` by id.
 */
module RecordCache {
  import opened Js

  /** A server record. Only its `id` is ever inspected by the client; the
      rest is carried verbatim. */
  datatype Record = Record(id: Id, attributes: map<string, Value>)

  /** Position `j` holds the first record whose id is `id`. */
  predicate IsFirstMatch(s: seq<Record>, id: Id, j: int)
  {
    0 <= j < |s| && s[j].id == id && forall i :: 0 <= i < j ==> s[i].id != id
  }

  predicate HasId(s: seq<Record>, id: Id)
  {
    exists j :: 0 <= j < |s| && s[j].id == id
  }

  /** `s.findIndex(r => r.id === id)`: the first matching position, or -1. */
  function FindIndex(s: seq<Record>, id: Id): (k: int)
    ensures -1 <= k < |s|
    ensures k >= 0 ==> IsFirstMatch(s, id, k)
    ensures k == -1 <==> !HasId(s, id)
  {
    if s == [] then -1
    else if s[0].id == id then 0
    else
      var k := FindIndex(s[1..], id);
      if k == -1 then
        assert forall j :: 1 <= j < |s| ==> s[j] == s[1..][j - 1];
        -1
      else
        assert s[1..][k] == s[k + 1];
        k + 1
  }

  /** `s.find(r => r.id === id)`: the first matching record, if any. */
  function FindFirst(s: seq<Record>, id: Id): (r: Wrappers.Option<Record>)
    ensures r.Some? <==> HasId(s, id)
    ensures r.Some? ==> exists j :: IsFirstMatch(s, id, j) && s[j] == r.value
  {
    var k := FindIndex(s, id);
    if k == -1 then Wrappers.None else Wrappers.Some(s[k])
  }

  /** `const i = s.findIndex(...); if (i !== -1) s[i] = r`: the first record
      with that id is replaced, every other position is untouched. */
  function ReplaceFirst(s: seq<Record>, id: Id, r: Record): (t: seq<Record>)
    ensures |t| == |s|
    ensures forall j :: 0 <= j < |s| ==> t[j] == if IsFirstMatch(s, id, j) then r else s[j]
    ensures !HasId(s, id) ==> t == s
  {
    var k := FindIndex(s, id);
    if k == -1 then s else s[k := r]
  }

  /** The upsert of `verifyUser`: replace the first match, else `push`. */
  function Upsert(s: seq<Record>, id: Id, r: Record): (t: seq<Record>)
    ensures HasId(s, id) ==> t == ReplaceFirst(s, id, r)
    ensures !HasId(s, id) ==> t == s + [r]
  {
    var k := FindIndex(s, id);
    if k == -1 then s + [r] else s[k := r]
  }

  /** `s.filter(r => r.id !== id)` */
  function RemoveById(s: seq<Record>, id: Id): (t: seq<Record>)
    ensures |t| <= |s|
    ensures forall x :: x in t <==> x in s && x.id != id
  {
    if s == [] then []
    else if s[0].id == id then RemoveById(s[1..], id)
    else [s[0]] + RemoveById(s[1..], id)
  }

  /** Filtering keeps relative order: it distributes over concatenation. */
  lemma {:induction false} RemoveByIdAppend(a: seq<Record>, b: seq<Record>, id: Id)
    ensures RemoveById(a + b, id) == RemoveById(a, id) + RemoveById(b, id)
  {
    if a == [] {
      assert a + b == b;
    } else {
      assert (a + b)[1..] == a[1..] + b;
      RemoveByIdAppend(a[1..], b, id);
    }
  }

  /** Removing an id twice is the same as removing it once. */
  lemma {:induction false} RemoveByIdIdempotent(s: seq<Record>, id: Id)
    ensures RemoveById(RemoveById(s, id), id) == RemoveById(s, id)
  {
    if s != [] {
      RemoveByIdIdempotent(s[1..], id);
      if s[0].id != id {
        var t := [s[0]] + RemoveById(s[1..], id);
        assert t[1..] == RemoveById(s[1..], id);
      }
    }
  }

  /** Removing an id that no record carries leaves the list as it was. */
  lemma {:induction false} RemoveByIdAbsent(s: seq<Record>, id: Id)
    requires !HasId(s, id)
    ensures RemoveById(s, id) == s
  {
    if s != [] {
      assert !HasId(s[1..], id) by {
        forall j | 0 <= j < |s[1..]| ensures s[1..][j].id != id {
          assert s[1..][j] == s[j + 1];
        }
      }
      RemoveByIdAbsent(s[1..], id);
      assert s == [s[0]] + s[1..];
    }
  }

  /** An upsert grows the list by at most one element, the new record is
      in it afterwards, and every position but the one replaced keeps its
      record. */
  lemma UpsertShape(s: seq<Record>, id: Id, r: Record)
    ensures |s| <= |Upsert(s, id, r)| <= |s| + 1
    ensures r in Upsert(s, id, r)
    ensures forall j :: 0 <= j < |s| && !IsFirstMatch(s, id, j) ==> Upsert(s, id, r)[j] == s[j]
  {
  }
}
