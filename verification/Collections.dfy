/** Small vocabulary shared by the models: options and flattened sequences. */
module Collections {

  datatype Option<+T> = None | Some(value: T)

  /** The concatenation of a sequence of sequences. It peels the last item, so
      that logs which grow at the end unfold in one step. */
  function Flatten<T>(parts: seq<seq<T>>): seq<T> {
    if parts == [] then [] else Flatten(parts[..|parts| - 1]) + parts[|parts| - 1]
  }

  lemma FlattenSnoc<T>(parts: seq<seq<T>>, last: seq<T>)
    ensures Flatten(parts + [last]) == Flatten(parts) + last
  {
    assert (parts + [last])[..|parts|] == parts;
  }

  lemma {:induction false} FlattenAppend<T>(a: seq<seq<T>>, b: seq<seq<T>>)
    ensures Flatten(a + b) == Flatten(a) + Flatten(b)
  {
    if b == [] {
      assert a + b == a;
    } else {
      var n := |b| - 1;
      assert (a + b)[..|a + b| - 1] == a + b[..n];
      FlattenAppend(a, b[..n]);
    }
  }

  lemma {:induction false} FlattenCons<T>(parts: seq<seq<T>>)
    requires parts != []
    ensures Flatten(parts) == parts[0] + Flatten(parts[1..])
  {
    assert parts == [parts[0]] + parts[1..];
    FlattenAppend([parts[0]], parts[1..]);
    FlattenSnoc([], parts[0]);
    assert [] + [parts[0]] == [parts[0]];
  }

  lemma SumAssociates<T>(a: seq<T>, b: seq<T>, c: seq<T>)
    ensures a + (b + c) == (a + b) + c
  {
  }

  /** Distinct indexes hold distinct items. */
  ghost predicate Distinct<T>(s: seq<T>) {
    forall i, j :: 0 <= i < j < |s| ==> s[i] != s[j]
  }
}
