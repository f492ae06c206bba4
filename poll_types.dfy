/** The record shapes that the real-time layer and the "my polls" pages share. */
module PollTypes {

  /** One option of a poll as the backend sends it: `{id, text, votesCount}`. */
  datatype OptionExample = OptionExample(id: int, text: string, votesCount: int)

  /** A poll owned by the signed-in user, as listed by the "my polls" endpoint. */
  datatype PollExample = PollExample(pollId: string, question: string, options: seq<OptionExample>, createdAt: string)

  /** The vote count of an option; the sort key of the display helpers. */
  function VotesCount(o: OptionExample): (n: int)
  {
    o.votesCount
  }
}
