/** The "exactly one entry has this name" scan used for clusters, services
    and hosts: a list comprehension `[x for x in xs if x['name'] == name]`
    followed by a length check. */
module Selection {
  import opened Results

  /** What the scan found. `NameMissing` is the KeyError raised by an entry
      without a `name` key; the comprehension reads every entry, so one such
      entry anywhere spoils the whole scan. */
  datatype Selection<T> = NameMissing | NoMatch | Ambiguous | Unique(item: T)

  predicate AllNamed<T>(xs: seq<T>, nameOf: T -> Option<string>) {
    forall i :: 0 <= i < |xs| ==> nameOf(xs[i]).Some?
  }

  /** Index `i` holds the only entry of `xs` called `name`. */
  predicate UniqueMatch<T>(xs: seq<T>, nameOf: T -> Option<string>, name: string, i: int) {
    && 0 <= i < |xs|
    && nameOf(xs[i]) == Some(name)
    && forall j :: 0 <= j < |xs| && nameOf(xs[j]) == Some(name) ==> j == i
  }

  /** The entries called `name`, in order. */
  function Filter<T>(xs: seq<T>, nameOf: T -> Option<string>, name: string): (r: seq<T>)
    ensures |r| <= |xs|
    ensures forall i :: 0 <= i < |r| ==> r[i] in xs && nameOf(r[i]) == Some(name)
    ensures forall i :: 0 <= i < |xs| && nameOf(xs[i]) == Some(name) ==> xs[i] in r
  {
    if |xs| == 0 then []
    else
      var rest := Filter(xs[1..], nameOf, name);
      if nameOf(xs[0]) == Some(name) then [xs[0]] + rest else rest
  }

  /** Two or more matches exactly when two distinct positions match. */
  lemma {:induction false} FilterTwoIff<T>(xs: seq<T>, nameOf: T -> Option<string>, name: string)
    ensures |Filter(xs, nameOf, name)| >= 2 <==>
      exists i, j :: 0 <= i < j < |xs| && nameOf(xs[i]) == Some(name) && nameOf(xs[j]) == Some(name)
  {
    if |xs| > 0 {
      var tail := xs[1..];
      FilterTwoIff(tail, nameOf, name);
      if |Filter(xs, nameOf, name)| >= 2 {
        if nameOf(xs[0]) == Some(name) {
          var x := Filter(tail, nameOf, name)[0];
          var j :| 0 <= j < |tail| && tail[j] == x;
          assert xs[j + 1] == x;
        } else {
          var i, j :| 0 <= i < j < |tail| && nameOf(tail[i]) == Some(name) && nameOf(tail[j]) == Some(name);
          assert xs[i + 1] == tail[i] && xs[j + 1] == tail[j];
        }
      }
      if exists i, j :: 0 <= i < j < |xs| && nameOf(xs[i]) == Some(name) && nameOf(xs[j]) == Some(name) {
        var i, j :| 0 <= i < j < |xs| && nameOf(xs[i]) == Some(name) && nameOf(xs[j]) == Some(name);
        assert xs[j] == tail[j - 1];
        if i == 0 {
          assert xs[j] in Filter(tail, nameOf, name);
        } else {
          assert xs[i] == tail[i - 1];
        }
      }
    }
  }

  /** A match inside `b` and another inside `d` are two distinct matches of
      `a + b + c + d + e`, in that order. */
  lemma MatchesInTwoParts<T>(a: seq<T>, b: seq<T>, c: seq<T>, d: seq<T>, e: seq<T>,
                             nameOf: T -> Option<string>, name: string, p: int, q: int)
    requires 0 <= p < |b| && nameOf(b[p]) == Some(name)
    requires 0 <= q < |d| && nameOf(d[q]) == Some(name)
    ensures var xs := a + b + c + d + e;
      exists i, j :: 0 <= i < j < |xs| && nameOf(xs[i]) == Some(name) && nameOf(xs[j]) == Some(name)
  {
    var xs := a + b + c + d + e;
    assert xs[|a| + p] == b[p];
    assert xs[|a| + |b| + |c| + q] == d[q];
  }

  /** The scan of the source: a missing name anywhere is an error, then two
      or more matches, then none; otherwise the single match is returned. */
  function Pick<T>(xs: seq<T>, nameOf: T -> Option<string>, name: string): (r: Selection<T>)
    ensures r.NameMissing? <==> !AllNamed(xs, nameOf)
    ensures r.NoMatch? <==>
      AllNamed(xs, nameOf) && forall i :: 0 <= i < |xs| ==> nameOf(xs[i]) != Some(name)
    ensures r.Ambiguous? <==>
      && AllNamed(xs, nameOf)
      && exists i, j :: 0 <= i < j < |xs| && nameOf(xs[i]) == Some(name) && nameOf(xs[j]) == Some(name)
    ensures r.Unique? <==> AllNamed(xs, nameOf) && exists i :: UniqueMatch(xs, nameOf, name, i)
    ensures r.Unique? ==> exists i :: UniqueMatch(xs, nameOf, name, i) && r.item == xs[i]
  {
    if !AllNamed(xs, nameOf) then NameMissing
    else
      var matches := Filter(xs, nameOf, name);
      FilterTwoIff(xs, nameOf, name);
      if |matches| > 1 then Ambiguous
      else if |matches| == 0 then
        NoMatch
      else
        assert exists i :: UniqueMatch(xs, nameOf, name, i) && xs[i] == matches[0] by {
          assert matches[0] in xs;
          var i :| 0 <= i < |xs| && xs[i] == matches[0];
          assert UniqueMatch(xs, nameOf, name, i);
        }
        Unique(matches[0])
  }
}
