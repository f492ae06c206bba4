/**
  The mock poll list that seeds the local-only poll pages, and the display
  helpers defined beside it (`src/utils/mockData.ts`), which work on the
  mock records (`id: string`, `votes`).
*/
module MockData {
  import StableSort

  datatype MockOption = MockOption(id: string, text: string, votes: int)

  datatype MockPoll = MockPoll(id: string, question: string, options: seq<MockOption>, createdBy: string, createdOn: string)

  function Votes(o: MockOption): (n: int)
  {
    o.votes
  }

  /** `getTotalVotes`: the sum of the options' `votes`. */
  function GetTotalVotes(options: seq<MockOption>): (total: int)
    ensures options == [] ==> total == 0
    ensures |options| == 1 ==> total == options[0].votes
  {
    assert |options| == 1 ==> StableSort.Sum(options, Votes) == Votes(options[0]) + StableSort.Sum(options[1..], Votes) && options[1..] == [];
    StableSort.Sum(options, Votes)
  }

  /**
    `sortOptionsByVotes`: a sorted copy of `options`: a permutation of it, by
    non-increasing `votes`, options with equal votes in their original order.
  */
  function SortOptionsByVotes(options: seq<MockOption>): (sorted: seq<MockOption>)
    ensures multiset(sorted) == multiset(options)
    ensures |sorted| == |options|
    ensures forall i, j :: 0 <= i < j < |sorted| ==> sorted[i].votes >= sorted[j].votes
    ensures forall n :: StableSort.WithKey(sorted, Votes, n) == StableSort.WithKey(options, Votes, n)
  {
    var r := StableSort.SortDesc(options, Votes);
    assert forall i, j :: 0 <= i < j < |r| ==> Votes(r[i]) >= Votes(r[j]);
    r
  }

  /** The total of an empty list is 0, and totals add up over concatenation. */
  lemma GetTotalVotesAppend(a: seq<MockOption>, b: seq<MockOption>)
    ensures GetTotalVotes([]) == 0
    ensures GetTotalVotes(a + b) == GetTotalVotes(a) + GetTotalVotes(b)
  {
    StableSort.SumAppend(a, b, Votes);
  }

  /** Sorting for display keeps the total. */
  lemma SortPreservesTotal(options: seq<MockOption>)
    ensures GetTotalVotes(SortOptionsByVotes(options)) == GetTotalVotes(options)
  {
    StableSort.SumSortDesc(options, Votes);
  }

  /** Sorting an already sorted list changes nothing. */
  lemma SortIdempotent(options: seq<MockOption>)
    ensures SortOptionsByVotes(SortOptionsByVotes(options)) == SortOptionsByVotes(options)
  {
    StableSort.SortDescIdempotent(options, Votes);
  }

  /** `mockPolls`: fifteen polls, ids "1" to "15". */
  const MockPolls: seq<MockPoll> := [
    MockPoll("1", "What is your favorite programming language?",
      [ MockOption("a", "JavaScript", 12),
        MockOption("b", "Python", 18),
        MockOption("c", "TypeScript", 8),
        MockOption("d", "Go", 5),
        MockOption("e", "Java", 200) ],
      "mohamed el merjani", "2025-07-15"),
    MockPoll("2", "Which frontend framework do you prefer?",
      [ MockOption("a", "React", 20),
        MockOption("b", "Vue", 10),
        MockOption("c", "Angular", 6),
        MockOption("d", "Svelte", 4) ],
      "mohamed el merjani", "2025-06-28"),
    MockPoll("3", "Best code editor for development?",
      [ MockOption("a", "VS Code", 45),
        MockOption("b", "IntelliJ IDEA", 23),
        MockOption("c", "Vim", 15),
        MockOption("d", "Sublime Text", 8),
        MockOption("e", "Atom", 3) ],
      "alex developer", "2025-08-20"),
    MockPoll("4", "Which database do you prefer for web applications?",
      [ MockOption("a", "PostgreSQL", 32),
        MockOption("b", "MongoDB", 28),
        MockOption("c", "MySQL", 25),
        MockOption("d", "SQLite", 12) ],
      "sarah dataeng", "2025-08-18"),
    MockPoll("5", "What is your preferred CSS framework?",
      [ MockOption("a", "TailwindCSS", 38),
        MockOption("b", "Bootstrap", 22),
        MockOption("c", "Material-UI", 16),
        MockOption("d", "Chakra UI", 14),
        MockOption("e", "Bulma", 5) ],
      "design guru", "2025-08-15"),
    MockPoll("6", "Best deployment platform for modern web apps?",
      [ MockOption("a", "Vercel", 34),
        MockOption("b", "Netlify", 29),
        MockOption("c", "AWS", 26),
        MockOption("d", "DigitalOcean", 18),
        MockOption("e", "Heroku", 13) ],
      "devops master", "2025-08-12"),
    MockPoll("7", "Which testing framework do you use most?",
      [ MockOption("a", "Jest", 41),
        MockOption("b", "Vitest", 19),
        MockOption("c", "Cypress", 17),
        MockOption("d", "Playwright", 15),
        MockOption("e", "Mocha", 8) ],
      "qa specialist", "2025-08-10"),
    MockPoll("8", "Favorite package manager for Node.js?",
      [ MockOption("a", "npm", 35),
        MockOption("b", "yarn", 28),
        MockOption("c", "pnpm", 22),
        MockOption("d", "bun", 15) ],
      "node enthusiast", "2025-08-08"),
    MockPoll("9", "Which operating system do you develop on?",
      [ MockOption("a", "macOS", 42),
        MockOption("b", "Windows", 38),
        MockOption("c", "Ubuntu/Linux", 35),
        MockOption("d", "Pop!_OS", 8),
        MockOption("e", "Arch Linux", 7) ],
      "system admin", "2025-08-05"),
    MockPoll("10", "Best state management for React apps?",
      [ MockOption("a", "Redux Toolkit", 31),
        MockOption("b", "Zustand", 24),
        MockOption("c", "React Context", 20),
        MockOption("d", "Jotai", 12),
        MockOption("e", "Recoil", 8) ],
      "react ninja", "2025-08-03"),
    MockPoll("11", "Which backend framework do you prefer?",
      [ MockOption("a", "Express.js", 33),
        MockOption("b", "FastAPI", 27),
        MockOption("c", "Django", 22),
        MockOption("d", "Spring Boot", 18),
        MockOption("e", "Ruby on Rails", 12),
        MockOption("f", "Laravel", 10) ],
      "backend wizard", "2025-08-01"),
    MockPoll("12", "What is your preferred mobile development approach?",
      [ MockOption("a", "React Native", 29),
        MockOption("b", "Flutter", 26),
        MockOption("c", "Native (Swift/Kotlin)", 24),
        MockOption("d", "Ionic", 11),
        MockOption("e", "Xamarin", 6) ],
      "mobile dev", "2025-07-30"),
    MockPoll("13", "Which cloud provider do you use most?",
      [ MockOption("a", "AWS", 45),
        MockOption("b", "Google Cloud", 28),
        MockOption("c", "Microsoft Azure", 25),
        MockOption("d", "DigitalOcean", 15),
        MockOption("e", "Linode", 7) ],
      "cloud architect", "2025-07-28"),
    MockPoll("14", "Best way to learn programming?",
      [ MockOption("a", "Building projects", 52),
        MockOption("b", "Online courses", 31),
        MockOption("c", "Books", 18),
        MockOption("d", "Bootcamps", 14),
        MockOption("e", "University degree", 12),
        MockOption("f", "YouTube tutorials", 23) ],
      "coding mentor", "2025-07-25"),
    MockPoll("15", "Which API design pattern do you prefer?",
      [ MockOption("a", "REST", 48),
        MockOption("b", "GraphQL", 32),
        MockOption("c", "gRPC", 15),
        MockOption("d", "WebSockets", 12),
        MockOption("e", "Server-Sent Events", 5) ],
      "api designer", "2025-07-22")
  ]
}
