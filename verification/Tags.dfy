/** Looking up a tag: the first one with the wanted id counts. */
module Tags {
  import opened Wrappers

  /** Some tag is `(id, v)`, and no earlier one carries the id. */
  ghost predicate FirstTag<K>(tags: seq<(K, string)>, id: K, v: string) {
    exists j :: 0 <= j < |tags| && tags[j] == (id, v) && NoneBefore(tags, id, j)
  }

  ghost predicate NoneBefore<K>(tags: seq<(K, string)>, id: K, n: nat)
    requires n <= |tags|
  {
    forall i :: 0 <= i < n ==> tags[i].0 != id
  }

  function TagValue<K(==)>(tags: seq<(K, string)>, id: K): Option<string> {
    if tags == [] then None else if tags[0].0 == id then Some(tags[0].1) else TagValue(tags[1..], id)
  }

  /** The value is that of the first tag with the id; there is none exactly if no tag carries it. */
  lemma {:induction false} TagValueIsFirst<K>(tags: seq<(K, string)>, id: K)
    ensures TagValue(tags, id).None? <==> NoneBefore(tags, id, |tags|)
    ensures forall v :: TagValue(tags, id) == Some(v) <==> FirstTag(tags, id, v)
  {
    if tags != [] {
      var rest := tags[1..];
      TagValueIsFirst(rest, id);
      assert forall i :: 0 <= i < |rest| ==> rest[i] == tags[i + 1];
      if tags[0].0 == id {
        assert tags[0] == (id, tags[0].1) && NoneBefore(tags, id, 0);
        assert forall j :: 0 < j <= |tags| ==> !NoneBefore(tags, id, j);
      } else {
        forall v ensures FirstTag(tags, id, v) <==> FirstTag(rest, id, v) {
          Shifted(tags, id, v);
        }
        assert NoneBefore(tags, id, |tags|) <==> NoneBefore(rest, id, |rest|) by {
          if NoneBefore(rest, id, |rest|) {
            assert forall i :: 1 <= i < |tags| ==> tags[i] == rest[i - 1];
          }
        }
      }
    }
  }

  lemma Shifted<K>(tags: seq<(K, string)>, id: K, v: string)
    requires tags != [] && tags[0].0 != id
    ensures FirstTag(tags, id, v) <==> FirstTag(tags[1..], id, v)
  {
    var rest := tags[1..];
    if j :| 0 <= j < |tags| && tags[j] == (id, v) && NoneBefore(tags, id, j) {
      assert rest[j - 1] == (id, v) && NoneBefore(rest, id, j - 1);
    }
    if j :| 0 <= j < |rest| && rest[j] == (id, v) && NoneBefore(rest, id, j) {
      assert tags[j + 1] == (id, v);
      assert NoneBefore(tags, id, j + 1) by {
        assert forall i :: 1 <= i < j + 1 ==> tags[i] == rest[i - 1];
      }
    }
  }
}
