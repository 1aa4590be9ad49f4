/** How much of a script of answers has been used. */
module Scripts {

  /** `after` is what remains of `before`. */
  predicate Remains<T(==)>(before: seq<T>, after: seq<T>) {
    |after| <= |before| && before[|before| - |after|..] == after
  }

  function Used<T>(before: seq<T>, after: seq<T>): seq<T> {
    if |after| <= |before| then before[..|before| - |after|] else []
  }

  lemma UsedNothing<T>(s: seq<T>)
    ensures Remains(s, s) && Used(s, s) == []
  {
  }

  lemma UsedOne<T>(s: seq<T>)
    requires s != []
    ensures Remains(s, s[1..]) && Used(s, s[1..]) == [s[0]]
  {
  }

  lemma UsedAppend<T>(a: seq<T>, b: seq<T>, c: seq<T>)
    requires Remains(a, b) && Remains(b, c)
    ensures Remains(a, c) && Used(a, c) == Used(a, b) + Used(b, c)
  {
    assert a == Used(a, b) + b && b == Used(b, c) + c;
  }

  /** Of a script only what is used counts. */
  lemma UsedIsOf<T>(a: seq<T>, b: seq<T>, x: T)
    requires x in Used(a, b)
    ensures x in a
  {
  }
}
