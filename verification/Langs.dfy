/** The language registry (package langs). */
module Langs {
  import opened Prelude

  datatype Language = Language(
    id: Bytes, name: Bytes, version: Bytes, rootfs: Bytes, sourceFile: Bytes, compileCmd: Bytes, runCmd: Bytes)

  predicate Complete(l: Language) {
    l.id != [] && l.rootfs != [] && l.runCmd != [] && l.sourceFile != []
  }

  predicate DistinctIds(list: seq<Language>) {
    forall i, j :: 0 <= i < j < |list| ==> list[i].id != list[j].id
  }

  function Ids(list: seq<Language>): (ids: seq<Bytes>)
    ensures |ids| == |list|
  {
    seq(|list|, i requires 0 <= i < |list| => list[i].id)
  }

  predicate AllComplete(list: seq<Language>) {
    forall i :: 0 <= i < |list| ==> Complete(list[i])
  }

  /** The table of a list, later entries winning. */
  function Table(list: seq<Language>, resolve: Bytes -> Bytes): map<Bytes, Language> {
    if list == [] then map[]
    else
      var l := list[|list| - 1];
      Table(list[..|list| - 1], resolve)[l.id := l.(rootfs := resolve(l.rootfs))]
  }

  /** Keys and ids agree, and the order lists every key once. */
  ghost predicate Agree(byID: map<Bytes, Language>, order: seq<Bytes>) {
    && (forall i, j :: 0 <= i < j < |order| ==> order[i] != order[j])
    && (forall id :: id in byID <==> id in order)
    && forall id :: id in byID ==> byID[id].id == id
  }

  lemma {:induction false} TableKeys(list: seq<Language>, resolve: Bytes -> Bytes, id: Bytes)
    ensures id in Table(list, resolve) <==> id in Ids(list)
    ensures id in Table(list, resolve) ==> Table(list, resolve)[id].id == id
  {
    if list != [] {
      var most := list[..|list| - 1];
      TableKeys(most, resolve, id);
      assert Ids(list) == Ids(most) + [list[|list| - 1].id];
    }
  }

  /** Distinct ids are all kept, each with its own entry. */
  lemma {:induction false} TableEntry(list: seq<Language>, resolve: Bytes -> Bytes, i: nat)
    requires DistinctIds(list) && i < |list|
    ensures list[i].id in Table(list, resolve)
    ensures Table(list, resolve)[list[i].id] == list[i].(rootfs := resolve(list[i].rootfs))
  {
    if i < |list| - 1 {
      TableEntry(list[..|list| - 1], resolve, i);
    }
  }

  lemma TableAgrees(list: seq<Language>, resolve: Bytes -> Bytes)
    requires DistinctIds(list)
    ensures Agree(Table(list, resolve), Ids(list))
  {
    forall id: Bytes
      ensures id in Table(list, resolve) <==> id in Ids(list)
      ensures id in Table(list, resolve) ==> Table(list, resolve)[id].id == id
    {
      TableKeys(list, resolve, id);
    }
  }

  /** An entry that passes every check extends the table and the order. */
  lemma OneMoreEntry(list: seq<Language>, i: nat, resolve: Bytes -> Bytes)
    requires i < |list| && AllComplete(list[..i]) && DistinctIds(list[..i])
    requires Complete(list[i]) && list[i].id !in Table(list[..i], resolve)
    ensures AllComplete(list[..i + 1]) && DistinctIds(list[..i + 1])
    ensures Ids(list[..i + 1]) == Ids(list[..i]) + [list[i].id]
    ensures Table(list[..i + 1], resolve)
         == Table(list[..i], resolve)[list[i].id := list[i].(rootfs := resolve(list[i].rootfs))]
  {
    TableKeys(list[..i], resolve, list[i].id);
    assert forall k :: 0 <= k < i ==> list[..i][k].id == Ids(list[..i])[k];
    assert list[..i + 1] == list[..i] + [list[i]] && list[..i + 1][..i] == list[..i];
  }

  /** An id already in the table belongs to an earlier entry. */
  lemma SeenBefore(list: seq<Language>, i: nat, resolve: Bytes -> Bytes)
    requires i < |list| && list[i].id in Table(list[..i], resolve)
    ensures !DistinctIds(list)
  {
    TableKeys(list[..i], resolve, list[i].id);
    var k :| 0 <= k < i && Ids(list[..i])[k] == list[i].id;
    assert list[k].id == list[i].id;
  }

  class Registry {
    var byID: map<Bytes, Language>
    var order: seq<Bytes>

    constructor ()
      ensures byID == map[] && order == []
    {
      byID := map[];
      order := [];
    }

    ghost predicate Valid()
      reads this
    {
      Agree(byID, order)
    }

    /**
      Load: accepts a list exactly when every entry is complete and no id occurs twice.  `resolve`
      makes a rootfs path absolute.
    */
    method Load(list: seq<Language>, resolve: Bytes -> Bytes) returns (ok: bool)
      requires byID == map[] && order == []
      modifies this
      ensures ok <==>
        && (forall l :: l in list ==> l.id != [] && l.rootfs != [] && l.runCmd != [] && l.sourceFile != [])
        && (forall i, j :: 0 <= i < j < |list| ==> list[i].id != list[j].id)
      ensures ok ==> Valid() && byID == Table(list, resolve) && order == Ids(list)
    {
      for i := 0 to |list|
        invariant order == Ids(list[..i]) && byID == Table(list[..i], resolve)
        invariant AllComplete(list[..i]) && DistinctIds(list[..i])
      {
        var l := list[i];
        if l.id == [] || l.rootfs == [] || l.runCmd == [] || l.sourceFile == [] {
          assert !Complete(list[i]);
          return false;
        }
        if l.id in byID {
          SeenBefore(list, i, resolve);
          return false;
        }
        OneMoreEntry(list, i, resolve);
        l := l.(rootfs := resolve(l.rootfs));
        byID := byID[l.id := l];
        order := order + [l.id];
      }
      assert list[..|list|] == list;
      TableAgrees(list, resolve);
      return true;
    }

    method Get(id: Bytes) returns (l: Option<Language>)
      requires Valid()
      ensures l.Some? <==> id in order
      ensures l.Some? ==> l.value == byID[id] && l.value.id == id
    {
      if id in byID {
        return Some(byID[id]);
      }
      return None;
    }

    method All() returns (out: seq<Language>)
      requires Valid()
      ensures Ids(out) == order && DistinctIds(out)
      ensures forall l :: l in out ==> l.id in byID && byID[l.id] == l
    {
      out := [];
      for i := 0 to |order|
        invariant |out| == i
        invariant forall k :: 0 <= k < i ==> order[k] in byID && out[k] == byID[order[k]]
      {
        assert order[i] in order;
        out := out + [byID[order[i]]];
      }
    }
  }
}
