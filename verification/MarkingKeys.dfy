/** Canonical text keys of markings. */
module MarkingKeys {
  import opened Text
  import opened PetriNet

  datatype Entry = Entry(id: string, count: nat)

  predicate Sorted(entries: seq<Entry>) {
    forall i, k :: 0 <= i < k < |entries| ==> Less(entries[i].id, entries[k].id)
  }

  function Texts(entries: seq<Entry>): (t: seq<string>)
    ensures |t| == |entries|
  {
    seq(|entries|, i requires 0 <= i < |entries| => EntryText(entries[i].id, entries[i].count))
  }

  ghost predicate Lists(entries: seq<Entry>, m: Marking) {
    forall e :: e in entries <==> e.id in m && m[e.id] == e.count > 0
  }

  /** `key` is the joined text of the positive entries of m in id order. */
  ghost predicate IsKey(key: string, m: Marking) {
    exists entries :: Sorted(entries) && Lists(entries, m) && key == Join(Texts(entries), '|')
  }

  method MarkingKey(m: Marking) returns (key: string)
    ensures IsKey(key, m)
  {
    var entries: seq<Entry>, rest := [], m.Keys;
    while rest != {}
      invariant rest <= m.Keys && Sorted(entries)
      invariant forall e :: e in entries <==> e.id in m && e.id !in rest && m[e.id] == e.count > 0
      decreases rest
    {
      var id :| id in rest;
      rest := rest - {id};
      if m[id] > 0 { entries := InsertEntry(entries, Entry(id, m[id])); }
    }
    key := Join(Texts(entries), '|');
  }

  method InsertEntry(entries: seq<Entry>, e: Entry) returns (r: seq<Entry>)
    requires Sorted(entries) && forall x :: x in entries ==> x.id != e.id
    ensures Sorted(r) && forall x :: x in r <==> x in entries || x == e
  {
    var i := 0;
    while i < |entries| && Less(entries[i].id, e.id)
      invariant 0 <= i <= |entries| && forall k :: 0 <= k < i ==> Less(entries[k].id, e.id)
    {
      i := i + 1;
    }
    forall k | i <= k < |entries| ensures Less(e.id, entries[k].id) {
      assert entries[i] in entries && entries[k] in entries;
      LessTotal(entries[i].id, e.id);
      if i < k { LessTransitive(e.id, entries[i].id, entries[k].id); }
    }
    r := entries[..i] + [e] + entries[i..];
  }

  /** No id of the marking can be mistaken for several entries. */
  ghost predicate Unbroken(m: Marking) {
    forall id :: id in m ==> !Breaks(id)
  }

  lemma {:induction false} TextsInjective(a: seq<Entry>, b: seq<Entry>)
    requires Texts(a) == Texts(b)
    ensures a == b
  {
    forall i | 0 <= i < |a| ensures a[i] == b[i] {
      assert Texts(a)[i] == Texts(b)[i];
      EntryTextInjective(a[i].id, a[i].count, b[i].id, b[i].count);
    }
  }

  lemma {:induction false} TextsAreParts(entries: seq<Entry>, m: Marking)
    requires Lists(entries, m) && Unbroken(m)
    ensures forall s :: s in Texts(entries) ==> IsPart(s)
  {
    forall s | s in Texts(entries) ensures IsPart(s) {
      var i :| 0 <= i < |entries| && Texts(entries)[i] == s;
      assert entries[i] in entries;
      EntryIsPart(entries[i].id, entries[i].count);
    }
  }

  /** Equal keys mean equal token counts, as long as no place id holds a separator behind a colon and digits. */
  lemma {:induction false} KeyInjective(key: string, a: Marking, b: Marking)
    requires IsKey(key, a) && IsKey(key, b) && Unbroken(a) && Unbroken(b)
    ensures SameTokens(a, b)
  {
    var x :| Sorted(x) && Lists(x, a) && key == Join(Texts(x), '|');
    var y :| Sorted(y) && Lists(y, b) && key == Join(Texts(y), '|');
    TextsAreParts(x, a);
    TextsAreParts(y, b);
    JoinInjective(Texts(x), Texts(y));
    TextsInjective(x, y);
    forall p ensures TokensAt(a, p) == TokensAt(b, p) {
      if TokensAt(a, p) > 0 { assert Entry(p, a[p]) in x; }
      if TokensAt(b, p) > 0 { assert Entry(p, b[p]) in y; }
    }
  }

  /** Equal token counts mean equal keys, whatever entries with zero tokens the maps hold. */
  lemma {:induction false} KeyCanonical(j: string, k: string, a: Marking, b: Marking)
    requires IsKey(j, a) && IsKey(k, b) && SameTokens(a, b)
    ensures j == k
  {
    var x :| Sorted(x) && Lists(x, a) && j == Join(Texts(x), '|');
    var y :| Sorted(y) && Lists(y, b) && k == Join(Texts(y), '|');
    forall e: Entry ensures e in x <==> e in y {
      assert TokensAt(a, e.id) == TokensAt(b, e.id);
    }
    SortedUnique(x, y);
  }

  lemma {:induction false} TailMembers(x: seq<Entry>)
    requires Sorted(x) && x != []
    ensures forall e :: e in x[1..] <==> e in x && e != x[0]
  {
    LessIrreflexive(x[0].id);
    assert x == [x[0]] + x[1..];
    assert forall i :: 0 < i < |x| ==> x[i] != x[0];
  }

  lemma {:induction false} SortedUnique(x: seq<Entry>, y: seq<Entry>)
    requires Sorted(x) && Sorted(y) && forall e :: e in x <==> e in y
    ensures x == y
  {
    assert (x != [] ==> x[0] in x) && (y != [] ==> y[0] in y);
    if x != [] {
      var i :| 0 <= i < |y| && y[i] == x[0];
      var k :| 0 <= k < |x| && x[k] == y[0];
      if i > 0 && k > 0 { LessTransitive(x[0].id, y[0].id, x[0].id); }
      LessIrreflexive(x[0].id);
      TailMembers(x);
      TailMembers(y);
      SortedUnique(x[1..], y[1..]);
      assert x == [x[0]] + x[1..] && y == [y[0]] + y[1..];
    }
  }

  /** With such a separator inside an id two different markings share a key. */
  lemma {:induction false} KeyCollision(a: Marking, b: Marking, key: string)
    requires a == map["a" := 1, "b" := 1] && b == map["a:1|b" := 1] && key == "a:1|b:1"
    ensures IsKey(key, a) && IsKey(key, b) && !SameTokens(a, b)
  {
    var x, y := [Entry("a", 1), Entry("b", 1)], [Entry("a:1|b", 1)];
    assert Numeral(1, 10) == "1";
    assert EntryText("a", 1) == "a:1" && EntryText("b", 1) == "b:1" && EntryText("a:1|b", 1) == "a:1|b:1";
    assert Texts(x) == ["a:1", "b:1"] && Texts(y) == ["a:1|b:1"];
    assert Join(Texts(x), '|') == "a:1" + "|" + "b:1";
    assert Lists(x, a) && Lists(y, b);
    assert TokensAt(a, "a") == 1 && TokensAt(b, "a") == 0;
  }
}
