/** `Counter.most_common(1)`: the heaviest size, the first seen among equals. */
module SizeVotes {
  import opened Basics

  datatype Vote = Vote(size: string, weight: real)

  function Total(votes: seq<Vote>, size: string): real {
    if votes == [] then 0.0
    else Total(votes[..|votes| - 1], size) + if votes[|votes| - 1].size == size then votes[|votes| - 1].weight else 0.0
  }

  /** The sizes voted for, in order of first vote. */
  function Sizes(votes: seq<Vote>): seq<string> {
    if votes == [] then []
    else if votes[|votes| - 1].size in Sizes(votes[..|votes| - 1]) then Sizes(votes[..|votes| - 1])
    else Sizes(votes[..|votes| - 1]) + [votes[|votes| - 1].size]
  }

  function Best(sizes: seq<string>, votes: seq<Vote>): Option<string> {
    if sizes == [] then None
    else
      var last := sizes[|sizes| - 1];
      match Best(sizes[..|sizes| - 1], votes)
      case None => Some(last)
      case Some(best) => if Total(votes, last) > Total(votes, best) then Some(last) else Some(best)
  }

  function Winner(votes: seq<Vote>): Option<string> {
    Best(Sizes(votes), votes)
  }

  /** Heavier than every size seen before it, and no lighter than any. */
  ghost predicate Wins(sizes: seq<string>, votes: seq<Vote>, k: nat) {
    && k < |sizes|
    && (forall i :: 0 <= i < k ==> Total(votes, sizes[i]) < Total(votes, sizes[k]))
    && (forall i :: k <= i < |sizes| ==> Total(votes, sizes[i]) <= Total(votes, sizes[k]))
  }

  lemma {:induction false} BestWins(sizes: seq<string>, votes: seq<Vote>) returns (k: nat)
    requires sizes != []
    ensures Wins(sizes, votes, k) && Best(sizes, votes) == Some(sizes[k])
    decreases |sizes|
  {
    var n := |sizes| - 1;
    k := n;
    if n > 0 {
      var best := BestWins(sizes[..n], votes);
      if Total(votes, sizes[n]) <= Total(votes, sizes[best]) {
        k := best;
      } else {
        assert forall i :: 0 <= i < n ==> sizes[..n][i] == sizes[i];
      }
    }
  }

  lemma {:induction false} SizesAreVoted(votes: seq<Vote>)
    ensures Distinct(Sizes(votes)) && forall s :: s in Sizes(votes) <==>
      exists i :: 0 <= i < |votes| && votes[i].size == s
    decreases |votes|
  {
    if votes != [] {
      var n := |votes| - 1;
      SizesAreVoted(votes[..n]);
      forall s ensures s in Sizes(votes) <==> exists i :: 0 <= i < |votes| && votes[i].size == s {
        if i :| 0 <= i < |votes| && votes[i].size == s {
          if i < n { assert votes[..n][i].size == s; }
        }
        if s in Sizes(votes[..n]) {
          var i :| 0 <= i < n && votes[..n][i].size == s;
          assert votes[i].size == s;
        } else if s in Sizes(votes) {
          assert votes[n].size == s;
        }
      }
    }
  }

  /** Some winner exists exactly when there is a vote; it was voted for, no size outweighs it, and it
      strictly outweighs every size first seen before it. */
  lemma WinnerIsHeaviest(votes: seq<Vote>)
    ensures Winner(votes).None? <==> votes == []
    ensures Winner(votes).Some? ==>
      && (exists i :: 0 <= i < |votes| && votes[i].size == Winner(votes).value)
      && (exists k: nat :: k < |Sizes(votes)| && Sizes(votes)[k] == Winner(votes).value && Wins(Sizes(votes), votes, k))
  {
    SizesAreVoted(votes);
    if votes != [] {
      var voted := votes[0].size;
      assert voted in Sizes(votes);
      var k := BestWins(Sizes(votes), votes);
      assert Sizes(votes)[k] in Sizes(votes);
    }
  }

  lemma TotalAbsent(votes: seq<Vote>, size: string)
    requires size !in Sizes(votes)
    ensures Total(votes, size) == 0.0
  {
  }

  /** Counting into a dictionary that remembers insertion order, then taking the first maximum. */
  method MostCommon(votes: seq<Vote>) returns (r: Option<string>)
    ensures r == Winner(votes)
  {
    var weights: map<string, real>, order: seq<string> := map[], [];
    var i := 0;
    while i < |votes|
      invariant 0 <= i <= |votes|
      invariant order == Sizes(votes[..i])
      invariant forall s :: s in weights <==> s in order
      invariant forall s :: s in order ==> weights[s] == Total(votes[..i], s)
    {
      var v := votes[i];
      assert votes[..i + 1][..i] == votes[..i];
      if v.size !in weights {
        TotalAbsent(votes[..i], v.size);
        order := order + [v.size];
        weights := weights[v.size := v.weight];
      } else {
        weights := weights[v.size := weights[v.size] + v.weight];
      }
      i := i + 1;
    }
    assert votes[..|votes|] == votes;
    r := None;
    var j := 0;
    while j < |order|
      invariant 0 <= j <= |order|
      invariant r == Best(order[..j], votes)
      invariant r.Some? ==> r.value in order
    {
      assert order[..j + 1][..j] == order[..j];
      if r.None? || weights[order[j]] > weights[r.value] {
        r := Some(order[j]);
      }
      j := j + 1;
    }
    assert order[..|order|] == order;
  }
}
