/**
 * Keyed sweeps: a sequence of sightings, each with a key and a score, where a later
 * sighting replaces the stored one for its key only when its score is strictly higher.
 * The merger's customer map and the field extractor's header merge both follow this rule.
 */
module Sightings {

  predicate Distinct(xs: seq<string>) {
    forall i, j :: 0 <= i < j < |xs| ==> xs[i] != xs[j]
  }

  /** The distinct strings of `xs`, each at its first occurrence. */
  function Dedup(xs: seq<string>): (r: seq<string>)
    ensures Distinct(r)
    ensures forall x :: x in r <==> x in xs
  {
    if |xs| == 0 then []
    else
      var d := Dedup(xs[..|xs| - 1]);
      assert xs == xs[..|xs| - 1] + [xs[|xs| - 1]];
      if xs[|xs| - 1] in d then d else d + [xs[|xs| - 1]]
  }

  /** One record met during a sweep: its key, the file it came from, its score (priority or confidence), the number of records in that file, and the record. */
  datatype Sighting<T> = Sighting(key: string, fileName: string, priority: real, fileCount: nat, value: T)

  function KeysOf<T>(ss: seq<Sighting<T>>): (ks: seq<string>)
    ensures |ks| == |ss| && forall i :: 0 <= i < |ss| ==> ks[i] == ss[i].key
  {
    seq(|ss|, i requires 0 <= i < |ss| => ss[i].key)
  }

  /** Sighting `i` has the highest priority among those with its key, and every earlier one a lower priority. */
  predicate IsFirstBest<T>(ss: seq<Sighting<T>>, i: int) {
    && 0 <= i < |ss|
    && (forall j :: 0 <= j < |ss| && ss[j].key == ss[i].key ==> ss[j].priority <= ss[i].priority)
    && (forall j :: 0 <= j < i && ss[j].key == ss[i].key ==> ss[j].priority < ss[i].priority)
  }

  /**
   * The sighting each key ends up with when a later sighting replaces the stored one
   * only if its priority is strictly higher.
   */
  function Winners<T>(ss: seq<Sighting<T>>): map<string, Sighting<T>> {
    if |ss| == 0 then map[]
    else
      var w := Winners(ss[..|ss| - 1]);
      var s := ss[|ss| - 1];
      if s.key !in w || w[s.key].priority < s.priority then w[s.key := s] else w
  }

  /** Every key met has a winner, and only those. */
  lemma {:induction false} WinnersDomain<T>(ss: seq<Sighting<T>>)
    ensures forall k :: k in Winners(ss) <==> k in KeysOf(ss)
    decreases |ss|
  {
    if |ss| > 0 {
      WinnersDomain(ss[..|ss| - 1]);
      assert KeysOf(ss) == KeysOf(ss[..|ss| - 1]) + [ss[|ss| - 1].key];
    }
  }

  /** The winner of a key is the first sighting of highest priority for that key. */
  lemma {:induction false} WinnerIsFirstBest<T>(ss: seq<Sighting<T>>, k: string) returns (i: nat)
    requires k in Winners(ss)
    ensures IsFirstBest(ss, i) && ss[i] == Winners(ss)[k] && ss[i].key == k
    decreases |ss|
  {
    var n := |ss| - 1;
    var front := ss[..n];
    var s := ss[n];
    var w := Winners(front);
    if k == s.key && (k !in w || w[k].priority < s.priority) {
      if k in w {
        var i' := WinnerIsFirstBest(front, k);
        forall j | 0 <= j < n && ss[j].key == k
          ensures ss[j].priority <= w[k].priority
        {
          assert front[j] == ss[j];
        }
      } else {
        WinnersDomain(front);
        forall j | 0 <= j < n
          ensures ss[j].key != k
        {
          assert KeysOf(front)[j] == ss[j].key;
        }
      }
      i := n;
    } else {
      i := WinnerIsFirstBest(front, k);
      assert ss[i] == front[i];
      forall j | 0 <= j < |ss| && ss[j].key == k
        ensures ss[j].priority <= ss[i].priority
      {
        if j < n {
          assert front[j] == ss[j];
        }
      }
      forall j | 0 <= j < i && ss[j].key == k
        ensures ss[j].priority < ss[i].priority
      {
        assert front[j] == ss[j];
      }
    }
  }

  lemma AppendNext<T>(a: seq<T>, b: seq<T>, j: nat)
    requires j < |b|
    ensures a + b[..j + 1] == (a + b[..j]) + [b[j]]
  {
    assert b[..j + 1] == b[..j] + [b[j]];
  }
}
