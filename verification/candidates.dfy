/** The candidate loop both selection variants share: every suitable device
    is inserted into a `std::multimap<int, VkPhysicalDevice>` under its
    score, in enumeration order, and the device under `rbegin()` is taken. */
module Candidates {
  import opened Common
  import opened Multimap

  /** What the suitability check reports for one device: the verdict and,
      for a suitable device, its score. Devices are identified by their
      position in the enumeration. */
  datatype Rating = Rating(suitable: bool, score: int)

  /** The multimap, in iteration order, after the loop has visited the
      first `n` devices rated in `ratings`. */
  function Fill(ratings: seq<Rating>, n: nat): (m: seq<Entry<nat>>)
    requires n <= |ratings|
    ensures SortedByKey(m)
    ensures |m| <= n
    ensures forall k :: 0 <= k < |m| ==> m[k].value < n
  {
    if n == 0 then []
    else
      var prev := Fill(ratings, n - 1);
      if ratings[n - 1].suitable then
        var e: Entry<nat> := Entry(ratings[n - 1].score, n - 1);
        InsertKeepsOrder(prev, e);
        InsertMembers(prev, e);
        Insert(prev, e)
      else prev
  }

  /** Entries strictly ordered by score, and by enumeration position among
      equal scores. */
  ghost predicate ScoreThenPositionOrder(m: seq<Entry<nat>>) {
    forall i, j :: 0 <= i < j < |m| ==>
      m[i].key < m[j].key || (m[i].key == m[j].key && m[i].value < m[j].value)
  }

  /** The multimap holds exactly one entry per suitable device among the
      first `n`, under that device's score. */
  ghost predicate HoldsSuitable(ratings: seq<Rating>, n: nat, m: seq<Entry<nat>>)
    requires n <= |ratings|
  {
    && (forall k :: 0 <= k < |m| ==>
          m[k].value < n && ratings[m[k].value].suitable && m[k].key == ratings[m[k].value].score)
    && (forall j :: 0 <= j < n && ratings[j].suitable ==> Entry(ratings[j].score, j) in m)
  }

  /** Inserting an entry whose position exceeds every position already in
      the multimap keeps the score-then-position order. */
  lemma InsertNewestKeepsOrder(m: seq<Entry<nat>>, e: Entry<nat>)
    requires SortedByKey(m) && ScoreThenPositionOrder(m)
    requires forall k :: 0 <= k < |m| ==> m[k].value < e.value
    ensures ScoreThenPositionOrder(Insert(m, e))
  {
    var r := Insert(m, e);
    InsertAfterEqualKeys(m, e);
    var p := UpperBound(m, e.key);
    assert forall k :: 0 <= k < p ==> r[k] == m[k];
    assert r[p] == e;
    assert forall k :: p < k < |r| ==> r[k] == m[k - 1];
    forall a, b | 0 <= a < b < |r|
      ensures r[a].key < r[b].key || (r[a].key == r[b].key && r[a].value < r[b].value)
    {
      if b < p {
      } else if b == p {
        assert r[a] == m[a];
      } else if a < p {
        assert r[b] == m[b - 1];
      } else if a == p {
        assert r[b] == m[b - 1];
      } else {
        assert r[a] == m[a - 1] && r[b] == m[b - 1];
      }
    }
  }

  lemma InsertMembers(m: seq<Entry<nat>>, e: Entry<nat>)
    ensures forall x :: x in Insert(m, e) <==> x in m || x == e
  {
    var r := Insert(m, e);
    forall x ensures x in r <==> x in m || x == e {
      assert x in r <==> x in multiset(r);
      assert x in m <==> x in multiset(m);
    }
  }

  /** Inserting a suitable device keeps the multimap equal to the set of
      suitable devices seen so far. */
  lemma InsertHoldsSuitable(ratings: seq<Rating>, n: nat, prev: seq<Entry<nat>>)
    requires 0 < n <= |ratings| && ratings[n - 1].suitable
    requires HoldsSuitable(ratings, n - 1, prev)
    ensures HoldsSuitable(ratings, n, Insert(prev, Entry(ratings[n - 1].score, n - 1)))
  {
    var e: Entry<nat> := Entry(ratings[n - 1].score, n - 1);
    var r := Insert(prev, e);
    InsertMembers(prev, e);
    forall k | 0 <= k < |r|
      ensures r[k].value < n && ratings[r[k].value].suitable && r[k].key == ratings[r[k].value].score
    {
      assert r[k] in r;
      if r[k] != e {
        var k' :| 0 <= k' < |prev| && prev[k'] == r[k];
      }
    }
    forall j | 0 <= j < n && ratings[j].suitable ensures Entry(ratings[j].score, j) in r {
      if j < n - 1 {
        assert Entry(ratings[j].score, j) in prev;
      }
    }
  }

  /** Skipping an unsuitable device keeps it too. */
  lemma SkipHoldsSuitable(ratings: seq<Rating>, n: nat, prev: seq<Entry<nat>>)
    requires 0 < n <= |ratings| && !ratings[n - 1].suitable
    requires HoldsSuitable(ratings, n - 1, prev)
    ensures HoldsSuitable(ratings, n, prev)
  {
    forall j | 0 <= j < n && ratings[j].suitable ensures Entry(ratings[j].score, j) in prev {
      assert j < n - 1;
    }
  }

  /** One loop iteration keeps the multimap equal to the set of suitable
      devices seen so far. */
  lemma FillStepHoldsSuitable(ratings: seq<Rating>, n: nat)
    requires 0 < n <= |ratings|
    requires HoldsSuitable(ratings, n - 1, Fill(ratings, n - 1))
    ensures HoldsSuitable(ratings, n, Fill(ratings, n))
  {
    var prev := Fill(ratings, n - 1);
    if ratings[n - 1].suitable {
      InsertHoldsSuitable(ratings, n, prev);
    } else {
      SkipHoldsSuitable(ratings, n, prev);
    }
  }

  lemma {:induction false} FillInvariant(ratings: seq<Rating>, n: nat)
    requires n <= |ratings|
    ensures SortedByKey(Fill(ratings, n))
    ensures ScoreThenPositionOrder(Fill(ratings, n))
    ensures HoldsSuitable(ratings, n, Fill(ratings, n))
  {
    if n > 0 {
      var prev := Fill(ratings, n - 1);
      FillInvariant(ratings, n - 1);
      FillStepHoldsSuitable(ratings, n);
      if ratings[n - 1].suitable {
        var e: Entry<nat> := Entry(ratings[n - 1].score, n - 1);
        InsertKeepsOrder(prev, e);
        InsertNewestKeepsOrder(prev, e);
      }
    }
  }

  /** The device the loop selects: suitable, of maximal score among the
      suitable devices, and the last enumerated among those sharing that
      score. */
  ghost predicate IsBest(ratings: seq<Rating>, b: nat) {
    && b < |ratings| && ratings[b].suitable
    && forall j :: 0 <= j < |ratings| && ratings[j].suitable ==>
         ratings[j].score < ratings[b].score || (ratings[j].score == ratings[b].score && j <= b)
  }

  /** At most one device is the best. */
  lemma BestIsUnique(ratings: seq<Rating>, a: nat, b: nat)
    requires IsBest(ratings, a) && IsBest(ratings, b)
    ensures a == b
  {
  }

  /** `candidates.rbegin()` when the multimap is not empty, `None` when it
      is: the best device and its score. */
  function Top(ratings: seq<Rating>): (r: Option<Entry<nat>>)
    ensures r.None? <==> forall j :: 0 <= j < |ratings| ==> !ratings[j].suitable
    ensures r.Some? ==> IsBest(ratings, r.value.value) && r.value.key == ratings[r.value.value].score
  {
    var m := Fill(ratings, |ratings|);
    FillInvariant(ratings, |ratings|);
    if |m| == 0 then
      None
    else
      var last := RBegin(m);
      assert last == m[|m| - 1];
      Some(last)
  }
}
