/** The condition check every report runs on a request: a duration range and request tags.
    Tag names and values are interned words, compared by identity. */
module Conditions {
  import opened Time

  /** A word of the dictionary, by address. */
  type Word = nat

  type Tag = (Word, Word)

  /** A bound of zero is no bound. */
  datatype Conditions = Conditions(minMicros: int, maxMicros: int, tags: seq<Tag>)

  // What the check is for.

  ghost predicate InRange(c: Conditions, micros: int) {
    && (c.minMicros > 0 ==> c.minMicros <= micros)
    && (c.maxMicros > 0 ==> micros <= c.maxMicros)
  }

  ghost predicate Carries(wanted: seq<Tag>, tags: seq<Tag>) {
    forall i :: 0 <= i < |wanted| ==> wanted[i] in tags
  }

  ghost predicate DistinctNames(tags: seq<Tag>) {
    forall i, j :: 0 <= i < j < |tags| ==> tags[i].0 != tags[j].0
  }

  // What it computes: matching pairs are counted until a wanted name has another value.

  datatype Tally = Tally(found: nat, wrong: bool)

  /** One wanted tag against the first `n` tags of a request. */
  ghost function Row(want: Tag, tags: seq<Tag>, n: nat): (t: Tally)
    requires n <= |tags|
  {
    if n == 0 then Tally(0, false)
    else
      var t, tag := Row(want, tags, n - 1), tags[n - 1];
      if t.wrong || tag.0 != want.0 then t
      else if tag.1 == want.1 then Tally(t.found + 1, false)
      else Tally(t.found, true)
  }

  /** The first `m` wanted tags. */
  ghost function Rows(wanted: seq<Tag>, tags: seq<Tag>, m: nat): (t: Tally)
    requires m <= |wanted|
  {
    if m == 0 then Tally(0, false)
    else
      var t := Rows(wanted, tags, m - 1);
      if t.wrong then t
      else
        var r := Row(wanted[m - 1], tags, |tags|);
        Tally(t.found + r.found, r.wrong)
  }

  ghost predicate TagsAccepted(wanted: seq<Tag>, tags: seq<Tag>) {
    wanted == [] || (tags != [] && Rows(wanted, tags, |wanted|).found == |wanted|)
  }

  method CountTags(wanted: seq<Tag>, tags: seq<Tag>) returns (found: nat)
    ensures found == Rows(wanted, tags, |wanted|).found
  {
    found := 0;
    for a := 0 to |wanted|
      invariant Rows(wanted, tags, a) == Tally(found, false)
    {
      ghost var before := found;
      for b := 0 to |tags|
        invariant found >= before && Row(wanted[a], tags, b) == Tally(found - before, false)
      {
        if wanted[a].0 == tags[b].0 {
          if wanted[a].1 == tags[b].1 {
            found := found + 1;
          } else {
            WrongStays(wanted, tags, a, b + 1);
            return;
          }
        }
      }
    }
  }

  /** After a wrong value nothing more is counted. */
  lemma WrongStays(wanted: seq<Tag>, tags: seq<Tag>, a: nat, b: nat)
    requires a < |wanted| && b <= |tags| && !Rows(wanted, tags, a).wrong && Row(wanted[a], tags, b).wrong
    ensures Rows(wanted, tags, |wanted|).found == Rows(wanted, tags, a).found + Row(wanted[a], tags, b).found
  {
    RowStuck(wanted[a], tags, b, |tags|);
    RowsStuck(wanted, tags, a + 1, |wanted|);
  }

  lemma {:induction false} RowStuck(want: Tag, tags: seq<Tag>, b: nat, n: nat)
    requires b <= n <= |tags|
    ensures Row(want, tags, n).found >= Row(want, tags, b).found
    ensures Row(want, tags, b).wrong ==> Row(want, tags, n) == Row(want, tags, b)
  {
    if b < n { RowStuck(want, tags, b, n - 1); }
  }

  lemma {:induction false} RowsStuck(wanted: seq<Tag>, tags: seq<Tag>, a: nat, m: nat)
    requires a <= m <= |wanted| && Rows(wanted, tags, a).wrong
    ensures Rows(wanted, tags, m) == Rows(wanted, tags, a)
  {
    if a < m { RowsStuck(wanted, tags, a, m - 1); }
  }

  method Check(c: Conditions, time: Timeval, tags: seq<Tag>) returns (ok: bool)
    ensures ok <==> InRange(c, Micros(time)) && TagsAccepted(c.tags, tags)
  {
    if c.minMicros > 0 && Micros(time) < c.minMicros {
      return false;
    }
    if c.maxMicros > 0 && Micros(time) > c.maxMicros {
      return false;
    }
    if |c.tags| > 0 {
      if |tags| == 0 {
        return false;
      }
      var found := CountTags(c.tags, tags);
      return found == |c.tags|;
    }
    ok := true;
  }

  // When the count means what it should.

  lemma CarriesNext(wanted: seq<Tag>, want: Tag, tags: seq<Tag>)
    ensures Carries(wanted + [want], tags) <==> Carries(wanted, tags) && want in tags
  {
    if Carries(wanted + [want], tags) {
      assert forall i :: 0 <= i < |wanted| ==> (wanted + [want])[i] == wanted[i];
      assert (wanted + [want])[|wanted|] == want;
    }
  }

  /** Each wanted name occurs at most once in the request. */
  ghost predicate WantedOnce(wanted: seq<Tag>, tags: seq<Tag>) {
    forall w, i, j :: 0 <= w < |wanted| && 0 <= i < j < |tags| && tags[i].0 == wanted[w].0 ==> tags[j].0 != wanted[w].0
  }

  ghost predicate OnceAmong(want: Tag, tags: seq<Tag>, n: nat)
    requires n <= |tags|
  {
    forall i, j :: 0 <= i < j < n && tags[i].0 == want.0 ==> tags[j].0 != want.0
  }

  lemma {:induction false} RowOfOnce(want: Tag, tags: seq<Tag>, n: nat)
    requires n <= |tags| && OnceAmong(want, tags, n)
    ensures Row(want, tags, n).found == (if want in tags[..n] then 1 else 0)
    ensures Row(want, tags, n).wrong <==> want !in tags[..n] && exists i :: 0 <= i < n && tags[i].0 == want.0
  {
    if n > 0 {
      RowOfOnce(want, tags, n - 1);
      assert tags[..n] == tags[..n - 1] + [tags[n - 1]];
    }
  }

  lemma {:induction false} RowsOfOnce(wanted: seq<Tag>, tags: seq<Tag>, m: nat)
    requires m <= |wanted| && WantedOnce(wanted, tags)
    ensures Rows(wanted, tags, m).found <= m
    ensures Rows(wanted, tags, m).wrong ==> Rows(wanted, tags, m).found < m
    ensures Rows(wanted, tags, m).found == m <==> Carries(wanted[..m], tags)
  {
    if m > 0 {
      RowsOfOnce(wanted, tags, m - 1);
      assert tags[..|tags|] == tags;
      RowOfOnce(wanted[m - 1], tags, |tags|);
      assert wanted[..m] == wanted[..m - 1] + [wanted[m - 1]];
      CarriesNext(wanted[..m - 1], wanted[m - 1], tags);
    }
  }

  /** One report's list is checked exactly if no wanted name occurs twice in the request;
      repeats of other names do no harm. */
  lemma WantedOnceIsExact(wanted: seq<Tag>, tags: seq<Tag>)
    requires WantedOnce(wanted, tags)
    ensures TagsAccepted(wanted, tags) <==> Carries(wanted, tags)
  {
    RowsOfOnce(wanted, tags, |wanted|);
    assert wanted[..|wanted|] == wanted;
    if tags == [] && wanted != [] {
      assert wanted[0] !in tags;
    }
  }

  /** The first tag that repeats an earlier name. */
  lemma {:induction false} FirstRepeat(tags: seq<Tag>, n: nat) returns (i: nat, j: nat)
    requires n <= |tags| && !DistinctNames(tags[..n])
    ensures i < j < n && tags[i].0 == tags[j].0 && DistinctNames(tags[..j])
  {
    if DistinctNames(tags[..n - 1]) {
      forall a, b | 0 <= a < b < n - 1 ensures tags[a].0 != tags[b].0 {
        assert tags[..n - 1][a] == tags[a] && tags[..n - 1][b] == tags[b];
      }
      i, j :| 0 <= i < j < n && tags[i].0 == tags[j].0;
    } else {
      i, j := FirstRepeat(tags, n - 1);
    }
  }

  /** A request that repeats a tag name is refused by a report that asks for a tag it has. */
  lemma RepeatIsRefused(tags: seq<Tag>) returns (want: Tag)
    requires !DistinctNames(tags)
    ensures Carries([want], tags) && !TagsAccepted([want], tags)
  {
    assert tags[..|tags|] == tags;
    var i, j := FirstRepeat(tags, |tags|);
    want := tags[j];
    assert OnceAmong(want, tags, j) by {
      forall a, b | 0 <= a < b < j && tags[a].0 == want.0 ensures tags[b].0 != want.0 {
        assert tags[..j][a] == tags[a] && tags[..j][b] == tags[b];
      }
    }
    RowOfOnce(want, tags, j);
    assert tags[..j][i] == tags[i];
    RowStuck(want, tags, j + 1, |tags|);
    assert want in tags[..j] ==> Row(want, tags, j + 1).found == 2;
    assert Rows([want], tags, 0) == Tally(0, false);
    assert Rows([want], tags, 1).found == Row(want, tags, |tags|).found != 1;
  }

  /** The check selects exactly the requests that carry every wanted tag, whatever tags are
      wanted, if and only if the request does not repeat a tag name. */
  lemma TagCheckExact(tags: seq<Tag>)
    ensures (forall wanted :: TagsAccepted(wanted, tags) <==> Carries(wanted, tags)) <==> DistinctNames(tags)
  {
    if DistinctNames(tags) {
      forall wanted ensures TagsAccepted(wanted, tags) <==> Carries(wanted, tags) {
        WantedOnceIsExact(wanted, tags);
      }
    } else {
      var want := RepeatIsRefused(tags);
      assert TagsAccepted([want], tags) != Carries([want], tags);
    }
  }

  /** A repeated tag can even stand in for one that is missing. */
  lemma RepeatStandsIn(a: Tag, b: Tag)
    requires a.0 != b.0
    ensures TagsAccepted([a, b], [a, a]) && !Carries([a, b], [a, a])
  {
    var w, ts := [a, b], [a, a];
    assert Row(a, ts, 1) == Tally(1, false);
    assert Row(a, ts, 2) == Tally(2, false);
    assert Row(b, ts, 1) == Tally(0, false);
    assert Row(b, ts, 2) == Tally(0, false);
    assert Rows(w, ts, 0) == Tally(0, false);
    assert Rows(w, ts, 1) == Tally(2, false);
    assert Rows(w, ts, 2) == Tally(2, false);
    assert w[1] !in ts;
  }
}
