/** Permission lists: the order sort() uses, the comma-separated column they are stored in, and
    the comparison ensureRole makes. */
module Permissions {
  import opened Text

  type List = seq<Text>

  // The default order of sort(): by code units, a prefix first.
  predicate AtMost(a: Text, b: Text) {
    a == [] || (b != [] && (a[0] < b[0] || (a[0] == b[0] && AtMost(a[1..], b[1..]))))
  }

  lemma {:induction false} AtMostTotal(a: Text, b: Text)
    ensures AtMost(a, b) || AtMost(b, a)
    decreases |a|
  {
    if a != [] && b != [] && a[0] == b[0] {
      AtMostTotal(a[1..], b[1..]);
    }
  }

  lemma {:induction false} AtMostAntisymmetric(a: Text, b: Text)
    requires AtMost(a, b) && AtMost(b, a)
    ensures a == b
    decreases |a|
  {
    if a != [] {
      AtMostAntisymmetric(a[1..], b[1..]);
      assert a == [a[0]] + a[1..] && b == [b[0]] + b[1..];
    }
  }

  lemma {:induction false} AtMostTransitive(a: Text, b: Text, c: Text)
    requires AtMost(a, b) && AtMost(b, c)
    ensures AtMost(a, c)
    decreases |a|
  {
    if a != [] && a[0] == b[0] && b[0] == c[0] {
      AtMostTransitive(a[1..], b[1..], c[1..]);
    }
  }

  ghost predicate Ascending(list: List) {
    forall i, j :: 0 <= i <= j < |list| ==> AtMost(list[i], list[j])
  }

  function Insert(x: Text, list: List): List {
    if list == [] || AtMost(x, list[0]) then [x] + list else [list[0]] + Insert(x, list[1..])
  }

  function Sorted(list: List): List {
    if list == [] then [] else Insert(list[0], Sorted(list[1..]))
  }

  lemma {:induction false} InsertAscending(x: Text, list: List)
    requires Ascending(list)
    ensures Ascending(Insert(x, list)) && multiset(Insert(x, list)) == multiset(list) + multiset{x}
    decreases |list|
  {
    AtMostTotal(x, x);
    if list == [] {
    } else if AtMost(x, list[0]) {
      forall j | 0 <= j < |list| ensures AtMost(x, list[j]) {
        AtMostTransitive(x, list[0], list[j]);
      }
    } else {
      var rest := list[1..];
      assert list == [list[0]] + rest;
      AtMostTotal(x, list[0]);
      InsertAscending(x, rest);
      forall y | y in Insert(x, rest) ensures AtMost(list[0], y) {
        assert y in multiset(Insert(x, rest));
        assert y == x || y in rest;
      }
      AtMostTotal(list[0], list[0]);
    }
  }

  lemma {:induction false} SortedAscending(list: List)
    ensures Ascending(Sorted(list)) && multiset(Sorted(list)) == multiset(list)
    decreases |list|
  {
    if list != [] {
      SortedAscending(list[1..]);
      InsertAscending(list[0], Sorted(list[1..]));
      assert list == [list[0]] + list[1..];
    }
  }

  lemma TailMultiset(list: List)
    requires list != []
    ensures multiset(list[1..]) == multiset(list) - multiset{list[0]} && list[0] in multiset(list)
  {
    assert list == [list[0]] + list[1..];
  }

  // There is one ascending arrangement of a multiset, so it does not matter how sort() works.
  lemma {:induction false} AscendingUnique(a: List, b: List)
    requires Ascending(a) && Ascending(b) && multiset(a) == multiset(b)
    ensures a == b
    decreases |a|
  {
    if a == [] {
      assert |multiset(b)| == |b|;
    } else {
      assert |multiset(a)| == |a| && |multiset(b)| == |b|;
      TailMultiset(a);
      TailMultiset(b);
      FirstsAgree(a, b);
      AscendingUnique(a[1..], b[1..]);
      assert a == [a[0]] + a[1..] && b == [b[0]] + b[1..];
    }
  }

  lemma FirstsAgree(a: List, b: List)
    requires a != [] && b != [] && Ascending(a) && Ascending(b) && multiset(a) == multiset(b)
    ensures a[0] == b[0]
  {
    assert a[0] in multiset(a) && b[0] in multiset(b);
    assert a[0] in b && b[0] in a;
    AtMostAntisymmetric(a[0], b[0]);
  }

  // ---- The simple-array column ----

  function Join(list: List): Text {
    if list == [] then []
    else if |list| == 1 then list[0]
    else list[0] + [COMMA] + Join(list[1..])
  }

  function Pieces(text: Text): (list: List)
    ensures list != []
  {
    if text == [] then [[]]
    else
      var rest := Pieces(text[1..]);
      if text[0] == COMMA then [[]] + rest else [[text[0]] + rest[0]] + rest[1..]
  }

  // The empty text is read as no permissions at all.
  function Split(text: Text): List {
    if text == [] then [] else Pieces(text)
  }

  predicate Storable(list: List) {
    list != [[]] && forall i :: 0 <= i < |list| ==> COMMA !in list[i]
  }

  function Commas(text: Text): nat {
    if text == [] then 0 else (if text[0] == COMMA then 1 else 0) + Commas(text[1..])
  }

  lemma {:induction false} CommasAppend(a: Text, b: Text)
    ensures Commas(a + b) == Commas(a) + Commas(b)
    decreases |a|
  {
    if a == [] {
      assert a + b == b;
    } else {
      assert (a + b)[1..] == a[1..] + b;
      CommasAppend(a[1..], b);
    }
  }

  lemma {:induction false} PiecesCount(text: Text)
    ensures |Pieces(text)| == Commas(text) + 1
    decreases |text|
  {
    if text != [] {
      PiecesCount(text[1..]);
    }
  }

  lemma {:induction false} CommasNone(text: Text)
    ensures Commas(text) == 0 <==> COMMA !in text
    decreases |text|
  {
    if text != [] {
      CommasNone(text[1..]);
      assert text == [text[0]] + text[1..];
    }
  }

  // A joined list holds a comma between its elements and every comma in them.
  lemma {:induction false} JoinCommas(list: List)
    requires list != []
    ensures Commas(Join(list)) >= |list| - 1
    ensures Commas(Join(list)) == |list| - 1 ==> forall i :: 0 <= i < |list| ==> COMMA !in list[i]
    decreases |list|
  {
    CommasNone(list[0]);
    if |list| > 1 {
      JoinCommas(list[1..]);
      CommasAppend(list[0] + [COMMA], Join(list[1..]));
      CommasAppend(list[0], [COMMA]);
      assert Commas([COMMA]) == 1;
      assert list == [list[0]] + list[1..];
    }
  }

  lemma {:induction false} PiecesFirst(a: Text, rest: Text)
    requires COMMA !in a
    ensures Pieces(a) == [a]
    ensures Pieces(a + [COMMA] + rest) == [a] + Pieces(rest)
    decreases |a|
  {
    if a == [] {
      assert a + [COMMA] + rest == [COMMA] + rest;
      assert ([COMMA] + rest)[1..] == rest;
    } else {
      PiecesFirst(a[1..], rest);
      assert (a + [COMMA] + rest)[1..] == a[1..] + [COMMA] + rest;
      assert a == [a[0]] + a[1..];
    }
  }

  lemma {:induction false} PiecesOfJoin(list: List)
    requires list != [] && forall i :: 0 <= i < |list| ==> COMMA !in list[i]
    ensures Pieces(Join(list)) == list
    decreases |list|
  {
    PiecesFirst(list[0], if |list| > 1 then Join(list[1..]) else []);
    if |list| == 1 {
      assert list == [list[0]];
    } else {
      PiecesOfJoin(list[1..]);
      assert list == [list[0]] + list[1..];
    }
  }

  // The column gives back the list that was stored, even up to order, exactly when no permission
  // holds a comma and the list is not the single empty string.
  lemma ColumnRoundTrip(list: List)
    ensures Storable(list) <==> Split(Join(list)) == list
    ensures Storable(list) <==> multiset(Split(Join(list))) == multiset(list)
  {
    if Storable(list) {
      if list != [] {
        PiecesOfJoin(list);
        assert Join(list) != [];
      }
    } else if multiset(Split(Join(list))) == multiset(list) {
      assert |multiset(Split(Join(list)))| == |Split(Join(list))| && |multiset(list)| == |list|;
      JoinCommas(list);
      PiecesCount(Join(list));
      assert false;
    }
  }

  lemma {:induction false} PiecesPlain(text: Text, p: Text)
    requires p in Pieces(text)
    ensures COMMA !in p
    decreases |text|
  {
    if text != [] {
      var rest := Pieces(text[1..]);
      if p in rest {
        PiecesPlain(text[1..], p);
      } else if p != [] {
        PiecesPlain(text[1..], rest[0]);
      }
    }
  }

  // A stored role lists exactly the permissions it was created with if and only if the column
  // can hold them.
  lemma StoredMembership(list: List)
    ensures Storable(list) <==> forall p :: p in Split(Join(list)) <==> p in list
  {
    ColumnRoundTrip(list);
    if !Storable(list) {
      if list == [[]] {
        assert [] in list && [] !in Split(Join(list));
      } else {
        var i :| 0 <= i < |list| && COMMA in list[i];
        if list[i] in Split(Join(list)) {
          PiecesPlain(Join(list), list[i]);
        }
        assert list[i] in list;
      }
    }
    hide Split, Join;
  }

  // ---- The comparison of ensureRole ----

  predicate UpToDate(stored: Text, target: List) {
    Stringify(Sorted(Split(stored))) == Stringify(Sorted(target))
  }

  // Comparing the sorted JSON texts compares the lists as multisets.
  lemma UpToDateIffSame(stored: Text, target: List)
    ensures UpToDate(stored, target) <==> multiset(Split(stored)) == multiset(target)
  {
    var a, b := Split(stored), target;
    SortedAscending(a);
    SortedAscending(b);
    if UpToDate(stored, target) {
      StringifyInjective(Sorted(a), Sorted(b));
    }
    if multiset(a) == multiset(b) {
      AscendingUnique(Sorted(a), Sorted(b));
    }
  }
}
