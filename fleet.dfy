/**
 * The geometry shared by the client and the server: a cell of the grid and a
 * ship, as the client builds it and as the server stores it.
 */
module Fleet {

  /** A grid cell `{x, y}`. */
  datatype Cell = Cell(x: int, y: int)

  /** A ship `{name, positions}`; the server stores whatever the client sends. */
  datatype Ship = Ship(name: string, positions: seq<Cell>)

  /** No element occurs twice in `s`. */
  predicate NoRepeats<T(==)>(s: seq<T>)
  {
    forall i, j :: 0 <= i < j < |s| ==> s[i] != s[j]
  }

  /** No cell of `a` is a cell of `b`. */
  predicate Disjoint(a: seq<Cell>, b: seq<Cell>)
  {
    forall c :: c in a ==> c !in b
  }

  /** Appending an element that is not yet there keeps a sequence free of repeats. */
  lemma {:induction false} NoRepeatsAppend<T>(s: seq<T>, x: T)
    requires NoRepeats(s) && x !in s
    ensures NoRepeats(s + [x])
  {
    forall i, j | 0 <= i < j < |s + [x]|
      ensures (s + [x])[i] != (s + [x])[j]
    {
      if j == |s| {
        assert (s + [x])[i] == s[i];
      } else {
        assert (s + [x])[i] == s[i] && (s + [x])[j] == s[j];
      }
    }
  }

}
