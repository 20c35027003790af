/**
 * The stored entities (models.py). Ids are the store's autoincrement keys;
 * `createdAt` is an abstract, ordered timestamp.
 */
module Models {
  import opened Wrappers
  import opened FactChecker

  /** verification_status: `pending` is only the column default. */
  datatype Status = Pending | Approved | Rejected

  /** The status as stored and as matched by the listing filter. */
  function StatusName(s: Status): (name: string)
    ensures name == "approved" <==> s == Approved
    ensures name == "rejected" <==> s == Rejected
    ensures name == "pending" <==> s == Pending
  {
    match s
    case Pending => "pending"
    case Approved => "approved"
    case Rejected => "rejected"
  }

  datatype User = User(id: int, username: string, email: string, createdAt: int)

  /** A stored source of an argument or of a rebuttal (Source and RebuttalSource have one shape). */
  datatype Source = Source(url: string, title: Option<string>, description: Option<string>)

  datatype Rebuttal = Rebuttal(
    id: int,
    argumentId: int,
    userId: int,
    content: string,
    createdAt: int,
    status: Status,
    isVerified: bool,
    factCheck: Verdict,
    sources: seq<Source>)

  datatype Argument = Argument(
    id: int,
    title: string,
    content: string,
    category: Option<string>,
    userId: int,
    createdAt: int,
    status: Status,
    isVerified: bool,
    factCheck: Verdict,
    sources: seq<Source>,
    rebuttals: seq<Rebuttal>)
}
