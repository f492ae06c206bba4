/** The display helpers of the real-time poll card (`src/utils/constants.ts`). */
module Constants {
  import opened PollTypes
  import StableSort

  /** `getTotalVotes`: the sum of the options' `votesCount`. */
  function GetTotalVotes(options: seq<OptionExample>): (total: int)
    ensures options == [] ==> total == 0
    ensures |options| == 1 ==> total == options[0].votesCount
  {
    assert |options| == 1 ==> StableSort.Sum(options, VotesCount) == VotesCount(options[0]) + StableSort.Sum(options[1..], VotesCount) && options[1..] == [];
    StableSort.Sum(options, VotesCount)
  }

  /**
    `sortOptionsByVotes`: a sorted copy of `options` (the argument, a value
    here, is never changed): a permutation of it, by non-increasing
    `votesCount`, options with equal counts in their original order.
  */
  function SortOptionsByVotes(options: seq<OptionExample>): (sorted: seq<OptionExample>)
    ensures multiset(sorted) == multiset(options)
    ensures |sorted| == |options|
    ensures forall i, j :: 0 <= i < j < |sorted| ==> sorted[i].votesCount >= sorted[j].votesCount
    ensures forall n :: StableSort.WithKey(sorted, VotesCount, n) == StableSort.WithKey(options, VotesCount, n)
  {
    var r := StableSort.SortDesc(options, VotesCount);
    assert forall i, j :: 0 <= i < j < |r| ==> VotesCount(r[i]) >= VotesCount(r[j]);
    r
  }

  /** The total of an empty list is 0, and totals add up over concatenation. */
  lemma GetTotalVotesAppend(a: seq<OptionExample>, b: seq<OptionExample>)
    ensures GetTotalVotes([]) == 0
    ensures GetTotalVotes(a + b) == GetTotalVotes(a) + GetTotalVotes(b)
  {
    StableSort.SumAppend(a, b, VotesCount);
  }

  /** Sorting for display keeps the total. */
  lemma SortPreservesTotal(options: seq<OptionExample>)
    ensures GetTotalVotes(SortOptionsByVotes(options)) == GetTotalVotes(options)
  {
    StableSort.SumSortDesc(options, VotesCount);
  }

  /** Sorting an already sorted list changes nothing. */
  lemma SortIdempotent(options: seq<OptionExample>)
    ensures SortOptionsByVotes(SortOptionsByVotes(options)) == SortOptionsByVotes(options)
  {
    StableSort.SortDescIdempotent(options, VotesCount);
  }
}
