/**
 * The submission-and-verification workflow (app.py): user creation, argument
 * and rebuttal admission, the verification decision and the argument listing,
 * over an in-memory store of users and arguments (each argument owning its
 * sources and rebuttals).
 *
 * Each submission runs an ordered chain of fail-fast checks. The pure
 * functions `ArgumentRejection` and `RebuttalRejection` say which error, if
 * any, that chain ends in; the `Store` methods run the chain step by step,
 * are proved to agree with those functions, and change the store only when
 * no check fails.
 */
module App {
  import opened Wrappers
  import opened Configuration
  import opened FactChecker
  import opened Models

  // ---------------------------------------------------------------------
  // The verification decision
  // ---------------------------------------------------------------------

  /** The least score the judge must give for approval. */
  const APPROVAL_SCORE: int := 70

  /** The verdict's score, 0 when the judge gave none (`result.get('score', 0)`). */
  function Score(v: Verdict): int {
    v.score.GetOr(0)
  }

  /** The stored outcome of a fact-check: verification_status and is_verified. */
  datatype Decision = Decision(status: Status, isVerified: bool)

  /**
   * A verdict approves exactly when it is valid and scores at least 70;
   * anything else rejects, `pending` is never the outcome, and the verified
   * flag goes with approval.
   */
  function Decide(v: Verdict): (d: Decision)
    ensures d.status == Approved <==> v.isValid && Score(v) >= APPROVAL_SCORE
    ensures d.status != Pending
    ensures d.isVerified <==> d.status == Approved
  {
    if v.isValid && Score(v) >= APPROVAL_SCORE then Decision(Approved, true) else Decision(Rejected, false)
  }

  /** Fail-closed: without a key, every argument and rebuttal is rejected with score 0. */
  lemma UnconfiguredJudgeRejects(apiKey: Option<string>, content: string, originalArgument: string,
                                 sources: seq<SourceInput>, judge: Prompt -> JudgeReply)
    requires !Configured(apiKey)
    ensures var v := CheckArgument(apiKey, content, sources, judge);
      Decide(v) == Decision(Rejected, false) && Score(v) == 0
    ensures var v := CheckRebuttal(apiKey, content, originalArgument, sources, judge);
      Decide(v) == Decision(Rejected, false) && Score(v) == 0
  {
  }

  /** Fail-closed: a judge call that raised leads to rejection with score 0. */
  lemma FailedJudgeCallRejects(apiKey: Option<string>, content: string, originalArgument: string,
                               sources: seq<SourceInput>, judge: Prompt -> JudgeReply)
    requires Configured(apiKey)
    ensures judge(ArgumentPrompt(content, SourcesText(sources))).Raised? ==>
      var v := CheckArgument(apiKey, content, sources, judge);
      Decide(v) == Decision(Rejected, false) && Score(v) == 0
    ensures judge(RebuttalPrompt(content, originalArgument, SourcesText(sources))).Raised? ==>
      var v := CheckRebuttal(apiKey, content, originalArgument, sources, judge);
      Decide(v) == Decision(Rejected, false) && Score(v) == 0
  {
  }

  // ---------------------------------------------------------------------
  // Requests and errors
  // ---------------------------------------------------------------------

  datatype RequiredField = Title | Content | UserId | UsernameAndEmail

  datatype ApiError =
    | MissingField(field: RequiredField)
    | InsufficientSources
    | ContentTooShort
    | ContentTooLong
    | UserNotFound
    | InvalidSourceUrls(invalid: seq<SourceCheck>)
    | ArgumentNotFound
    | ArgumentNotRebuttable
    | DuplicateUser

  /** The HTTP status each error is answered with. */
  function HttpStatus(e: ApiError): (code: int)
    ensures code == 404 <==> e.UserNotFound? || e.ArgumentNotFound?
    ensures code == 409 <==> e.DuplicateUser?
    ensures code == 400 <==> !(e.UserNotFound? || e.ArgumentNotFound? || e.DuplicateUser?)
  {
    match e
    case UserNotFound => 404
    case ArgumentNotFound => 404
    case DuplicateUser => 409
    case _ => 400
  }

  /** The JSON bodies; `None` is a member that is missing or null. */
  datatype UserRequest = UserRequest(username: Option<string>, email: Option<string>)

  datatype ArgumentRequest = ArgumentRequest(
    title: Option<string>,
    content: Option<string>,
    category: Option<string>,
    userId: Option<int>,
    sources: Option<seq<SourceInput>>)

  datatype RebuttalRequest = RebuttalRequest(
    content: Option<string>,
    userId: Option<int>,
    sources: Option<seq<SourceInput>>)

  /** `data.get(key)` is truthy: a non-empty string. */
  predicate Given(s: Option<string>) {
    s.Some? && s.value != ""
  }

  /** `data.get('user_id')` is truthy: a non-zero id. */
  predicate GivenId(id: Option<int>) {
    id.Some? && id.value != 0
  }

  /** The source list is present, not empty, and at least `min` long. */
  predicate EnoughSources(sources: Option<seq<SourceInput>>, min: nat) {
    sources.Some? && sources.value != [] && |sources.value| >= min
  }

  predicate UserExists(users: seq<User>, id: int) {
    exists i :: 0 <= i < |users| && users[i].id == id
  }

  /** Every source has a non-empty url that the URL library accepts. */
  predicate AllUrlsValid(sources: seq<SourceInput>, validUrl: string -> UrlResult) {
    forall i :: 0 <= i < |sources| ==>
      sources[i].url.Str? && sources[i].url.s != "" && validUrl(sources[i].url.s) == ValidTrue
  }

  /** invalid_sources: the checks whose url is not valid, in order. */
  function InvalidSources(checks: seq<SourceCheck>): (r: seq<SourceCheck>)
    ensures forall c :: c in r <==> c in checks && !c.isValidUrl
    ensures r == [] <==> forall i :: 0 <= i < |checks| ==> checks[i].isValidUrl
  {
    if checks == [] then []
    else
      var rest := InvalidSources(checks[..|checks| - 1]);
      var last := checks[|checks| - 1];
      assert checks == checks[..|checks| - 1] + [last];
      if last.isValidUrl then rest else rest + [last]
  }

  /** The positions of the checks whose url is not valid, increasing. */
  function InvalidPositions(checks: seq<SourceCheck>): (p: seq<nat>)
    ensures forall k :: 0 <= k < |p| ==> p[k] < |checks| && !checks[p[k]].isValidUrl
    ensures forall k, l :: 0 <= k < l < |p| ==> p[k] < p[l]
    ensures forall j :: 0 <= j < |checks| && !checks[j].isValidUrl ==> j in p
  {
    if checks == [] then []
    else
      var n := |checks| - 1;
      var rest := InvalidPositions(checks[..n]);
      if checks[n].isValidUrl then rest else rest + [n]
  }

  /** invalid_sources is exactly the failing checks in input order: the checks at InvalidPositions. */
  lemma {:induction false} InvalidSourcesInOrder(checks: seq<SourceCheck>)
    ensures |InvalidSources(checks)| == |InvalidPositions(checks)|
    ensures forall k :: 0 <= k < |InvalidPositions(checks)| ==>
      InvalidSources(checks)[k] == checks[InvalidPositions(checks)[k]]
  {
    if checks != [] {
      var n := |checks| - 1;
      InvalidSourcesInOrder(checks[..n]);
    }
  }

  // ---------------------------------------------------------------------
  // Admission of an argument (submit_argument's checks)
  // ---------------------------------------------------------------------

  /** Everything submit_argument demands of a submission before it is fact-checked. */
  predicate ArgumentAdmissible(cfg: Config, users: seq<User>, req: ArgumentRequest, validUrl: string -> UrlResult) {
    && Given(req.title)
    && Given(req.content)
    && GivenId(req.userId)
    && EnoughSources(req.sources, cfg.minSources)
    && cfg.minLength <= |req.content.value| <= cfg.maxLength
    && UserExists(users, req.userId.value)
    && AllUrlsValid(req.sources.value, validUrl)
  }

  /**
   * The error submit_argument answers with, if any: the first failing check
   * in the order title, content, user id, sources, minimum length, maximum
   * length, user, source URLs. It is `None` exactly for an admissible
   * submission, and a URL error lists every invalid source.
   */
  function ArgumentRejection(cfg: Config, users: seq<User>, req: ArgumentRequest, validUrl: string -> UrlResult): (r: Option<ApiError>)
    ensures r.None? <==> ArgumentAdmissible(cfg, users, req, validUrl)
    ensures r.Some? && r.value.InvalidSourceUrls? ==>
      && req.sources.Some?
      && r.value.invalid == InvalidSources(ValidatedSources(req.sources.value, validUrl))
      && r.value.invalid != []
  {
    if !Given(req.title) then Some(MissingField(Title))
    else if !Given(req.content) then Some(MissingField(Content))
    else if !GivenId(req.userId) then Some(MissingField(UserId))
    else if !EnoughSources(req.sources, cfg.minSources) then Some(InsufficientSources)
    else if |req.content.value| < cfg.minLength then Some(ContentTooShort)
    else if |req.content.value| > cfg.maxLength then Some(ContentTooLong)
    else if !UserExists(users, req.userId.value) then Some(UserNotFound)
    else
      var invalid := InvalidSources(ValidatedSources(req.sources.value, validUrl));
      if invalid != [] then Some(InvalidSourceUrls(invalid)) else None
  }

  /** The checks run in a fixed order and the first that fails decides the error. */
  lemma ArgumentChecksInOrder(cfg: Config, users: seq<User>, req: ArgumentRequest, validUrl: string -> UrlResult)
    ensures var r := ArgumentRejection(cfg, users, req, validUrl);
      && (!Given(req.title) ==> r == Some(MissingField(Title)))
      && (Given(req.title) && !Given(req.content) ==> r == Some(MissingField(Content)))
      && (Given(req.title) && Given(req.content) && !GivenId(req.userId) ==> r == Some(MissingField(UserId)))
      && (Given(req.title) && Given(req.content) && GivenId(req.userId) && !EnoughSources(req.sources, cfg.minSources)
          ==> r == Some(InsufficientSources))
      && ((Given(req.title) && Given(req.content) && GivenId(req.userId) && EnoughSources(req.sources, cfg.minSources)
           && |req.content.value| < cfg.minLength)
          ==> r == Some(ContentTooShort))
      && ((Given(req.title) && Given(req.content) && GivenId(req.userId) && EnoughSources(req.sources, cfg.minSources)
           && cfg.minLength <= |req.content.value| && |req.content.value| > cfg.maxLength)
          ==> r == Some(ContentTooLong))
      && ((Given(req.title) && Given(req.content) && GivenId(req.userId) && EnoughSources(req.sources, cfg.minSources)
           && cfg.minLength <= |req.content.value| <= cfg.maxLength && !UserExists(users, req.userId.value))
          ==> r == Some(UserNotFound))
      && ((Given(req.title) && Given(req.content) && GivenId(req.userId) && EnoughSources(req.sources, cfg.minSources)
           && cfg.minLength <= |req.content.value| <= cfg.maxLength && UserExists(users, req.userId.value)
           && !AllUrlsValid(req.sources.value, validUrl))
          ==> r.Some? && r.value.InvalidSourceUrls?)
  {
  }

  /** An empty source list is refused even where no minimum count applies. */
  lemma EmptySourceListRefused(cfg: Config, users: seq<User>, req: ArgumentRequest, validUrl: string -> UrlResult)
    requires Given(req.title) && Given(req.content) && GivenId(req.userId)
    requires req.sources == Some([])
    ensures ArgumentRejection(cfg, users, req, validUrl) == Some(InsufficientSources)
  {
  }

  /** The length bounds are inclusive at both ends: 100 and 5000 characters pass, 99 and 5001 do not. */
  lemma DefaultLengthBoundsInclusive(apiKey: Option<string>, users: seq<User>, req: ArgumentRequest, validUrl: string -> UrlResult)
    requires Given(req.title) && Given(req.content) && GivenId(req.userId)
    requires EnoughSources(req.sources, MIN_SOURCES_REQUIRED)
    requires UserExists(users, req.userId.value) && AllUrlsValid(req.sources.value, validUrl)
    ensures |req.content.value| == 100 || |req.content.value| == 5000 ==>
      ArgumentRejection(Defaults(apiKey), users, req, validUrl) == None
    ensures |req.content.value| == 99 ==> ArgumentRejection(Defaults(apiKey), users, req, validUrl) == Some(ContentTooShort)
    ensures |req.content.value| == 5001 ==> ArgumentRejection(Defaults(apiKey), users, req, validUrl) == Some(ContentTooLong)
  {
  }

  // ---------------------------------------------------------------------
  // Admission of a rebuttal (submit_rebuttal's checks)
  // ---------------------------------------------------------------------

  /** The position of the argument with the given id, if there is one. */
  function FindArgument(arguments: seq<Argument>, id: int): (r: Option<nat>)
    ensures r.Some? ==> r.value < |arguments| && arguments[r.value].id == id
    ensures r.None? <==> forall i :: 0 <= i < |arguments| ==> arguments[i].id != id
  {
    if arguments == [] then None
    else if arguments[0].id == id then Some(0)
    else match FindArgument(arguments[1..], id)
      case None => None
      case Some(i) => Some(i + 1)
  }

  /** Everything submit_rebuttal demands before the rebuttal is fact-checked. */
  predicate RebuttalAdmissible(cfg: Config, users: seq<User>, arguments: seq<Argument>, argumentId: int,
                               req: RebuttalRequest, validUrl: string -> UrlResult) {
    && FindArgument(arguments, argumentId).Some?
    && arguments[FindArgument(arguments, argumentId).value].status == Approved
    && Given(req.content)
    && GivenId(req.userId)
    && EnoughSources(req.sources, cfg.minSources)
    && UserExists(users, req.userId.value)
    && AllUrlsValid(req.sources.value, validUrl)
  }

  /**
   * The error submit_rebuttal answers with, if any: first the argument must
   * exist and be approved, then content, user id, sources, user and source
   * URLs are checked in that order. There is no length check.
   */
  function RebuttalRejection(cfg: Config, users: seq<User>, arguments: seq<Argument>, argumentId: int,
                             req: RebuttalRequest, validUrl: string -> UrlResult): (r: Option<ApiError>)
    ensures r.None? <==> RebuttalAdmissible(cfg, users, arguments, argumentId, req, validUrl)
    ensures r == Some(ArgumentNotFound) <==> forall i :: 0 <= i < |arguments| ==> arguments[i].id != argumentId
    ensures r.Some? && r.value.InvalidSourceUrls? ==>
      && req.sources.Some?
      && r.value.invalid == InvalidSources(ValidatedSources(req.sources.value, validUrl))
      && r.value.invalid != []
  {
    match FindArgument(arguments, argumentId)
    case None => Some(ArgumentNotFound)
    case Some(i) =>
      if arguments[i].status != Approved then Some(ArgumentNotRebuttable)
      else if !Given(req.content) then Some(MissingField(Content))
      else if !GivenId(req.userId) then Some(MissingField(UserId))
      else if !EnoughSources(req.sources, cfg.minSources) then Some(InsufficientSources)
      else if !UserExists(users, req.userId.value) then Some(UserNotFound)
      else
        var invalid := InvalidSources(ValidatedSources(req.sources.value, validUrl));
        if invalid != [] then Some(InvalidSourceUrls(invalid)) else None
  }

  /**
   * Once the argument is found and approved, the rebuttal's checks run as
   * content, user id, sources, user, source URLs, and the first that fails
   * decides the error.
   */
  lemma RebuttalChecksInOrder(cfg: Config, users: seq<User>, arguments: seq<Argument>, argumentId: int,
                              req: RebuttalRequest, validUrl: string -> UrlResult)
    requires FindArgument(arguments, argumentId).Some?
    requires arguments[FindArgument(arguments, argumentId).value].status == Approved
    ensures var r := RebuttalRejection(cfg, users, arguments, argumentId, req, validUrl);
      && (!Given(req.content) ==> r == Some(MissingField(Content)))
      && (Given(req.content) && !GivenId(req.userId) ==> r == Some(MissingField(UserId)))
      && ((Given(req.content) && GivenId(req.userId) && !EnoughSources(req.sources, cfg.minSources))
          ==> r == Some(InsufficientSources))
      && ((Given(req.content) && GivenId(req.userId) && EnoughSources(req.sources, cfg.minSources)
           && !UserExists(users, req.userId.value))
          ==> r == Some(UserNotFound))
      && ((Given(req.content) && GivenId(req.userId) && EnoughSources(req.sources, cfg.minSources)
           && UserExists(users, req.userId.value) && !AllUrlsValid(req.sources.value, validUrl))
          ==> r.Some? && r.value.InvalidSourceUrls?)
  {
  }

  /** A rebuttal to an argument that is not approved is refused before any of its fields is looked at. */
  lemma UnapprovedArgumentNotRebuttable(cfg: Config, users: seq<User>, arguments: seq<Argument>, argumentId: int,
                                        req: RebuttalRequest, validUrl: string -> UrlResult)
    requires exists i :: 0 <= i < |arguments| && arguments[i].id == argumentId
    requires forall i :: 0 <= i < |arguments| && arguments[i].id == argumentId ==> arguments[i].status != Approved
    ensures RebuttalRejection(cfg, users, arguments, argumentId, req, validUrl) == Some(ArgumentNotRebuttable)
  {
  }

  /** The length of a rebuttal's content never matters, only that it is not empty. */
  lemma RebuttalLengthUnchecked(cfg: Config, users: seq<User>, arguments: seq<Argument>, argumentId: int,
                                req: RebuttalRequest, validUrl: string -> UrlResult, content: string)
    requires Given(req.content) && content != ""
    ensures RebuttalRejection(cfg, users, arguments, argumentId, req, validUrl)
         == RebuttalRejection(cfg, users, arguments, argumentId, req.(content := Some(content)), validUrl)
  {
  }

  // ---------------------------------------------------------------------
  // The stored form of submitted sources
  // ---------------------------------------------------------------------

  /** A member's value as a nullable column: the string, or `None` when missing or null. */
  function ValueOf(f: Field): Option<string> {
    match f
    case Str(t) => Some(t)
    case _ => None
  }

  /** `stored` records the url, title and description of `input`. */
  predicate Copies(stored: Source, input: SourceInput) {
    && input.url == Str(stored.url)
    && stored.title == ValueOf(input.title)
    && stored.description == ValueOf(input.description)
  }

  /** The loop that builds a record's sources: one stored source per submitted one, in order. */
  method StoreSources(inputs: seq<SourceInput>) returns (stored: seq<Source>)
    requires forall i :: 0 <= i < |inputs| ==> inputs[i].url.Str?
    ensures |stored| == |inputs|
    ensures forall i :: 0 <= i < |inputs| ==> Copies(stored[i], inputs[i])
  {
    stored := [];
    for n := 0 to |inputs|
      invariant |stored| == n
      invariant forall i :: 0 <= i < n ==> Copies(stored[i], inputs[i])
    {
      var sourceData := inputs[n];
      var source := Source(sourceData.url.s, ValueOf(sourceData.title), ValueOf(sourceData.description));
      stored := stored + [source];
    }
  }

  // ---------------------------------------------------------------------
  // What the store keeps true
  // ---------------------------------------------------------------------

  /** Users carry the ids 1, 2, ... in order, and no two share a username or an email. */
  predicate UsersOk(users: seq<User>) {
    && (forall i :: 0 <= i < |users| ==> users[i].id == i + 1)
    && (forall i, j :: 0 <= i < j < |users| ==>
         users[i].username != users[j].username && users[i].email != users[j].email)
  }

  /** At least the minimum number of sources, never none, each with a URL the library accepts. */
  predicate SourcesOk(cfg: Config, validUrl: string -> UrlResult, sources: seq<Source>) {
    && sources != []
    && |sources| >= cfg.minSources
    && forall i :: 0 <= i < |sources| ==> sources[i].url != "" && validUrl(sources[i].url) == ValidTrue
  }

  /** The stored status and flag are the decision on the stored verdict. */
  predicate Recorded(status: Status, isVerified: bool, verdict: Verdict) {
    Decide(verdict) == Decision(status, isVerified)
  }

  predicate RebuttalOk(cfg: Config, validUrl: string -> UrlResult, userCount: nat, argumentId: int, rebuttal: Rebuttal) {
    && rebuttal.argumentId == argumentId
    && 1 <= rebuttal.userId <= userCount
    && rebuttal.content != ""
    && SourcesOk(cfg, validUrl, rebuttal.sources)
    && Recorded(rebuttal.status, rebuttal.isVerified, rebuttal.factCheck)
  }

  predicate ArgumentOk(cfg: Config, validUrl: string -> UrlResult, userCount: nat, a: Argument) {
    && a.title != ""
    && a.content != ""
    && cfg.minLength <= |a.content| <= cfg.maxLength
    && 1 <= a.userId <= userCount
    && SourcesOk(cfg, validUrl, a.sources)
    && Recorded(a.status, a.isVerified, a.factCheck)
    && (a.rebuttals != [] ==> a.status == Approved)
    && forall j :: 0 <= j < |a.rebuttals| ==> RebuttalOk(cfg, validUrl, userCount, a.id, a.rebuttals[j])
  }

  /** The store's invariant: well-formed users, and arguments with ids 1, 2, ... that are each well-formed. */
  predicate StoreOk(cfg: Config, validUrl: string -> UrlResult, users: seq<User>, arguments: seq<Argument>) {
    && UsersOk(users)
    && forall i :: 0 <= i < |arguments| ==> arguments[i].id == i + 1 && ArgumentOk(cfg, validUrl, |users|, arguments[i])
  }

  /** With ids 1, 2, ..., a user id resolves exactly when it is in range. */
  lemma UserExistsInRange(users: seq<User>, id: int)
    requires UsersOk(users)
    ensures UserExists(users, id) <==> 1 <= id <= |users|
  {
    if 1 <= id <= |users| {
      assert users[id - 1].id == id;
    }
  }

  /** A well-formed argument stays well-formed when more users are added. */
  lemma ArgumentOkAsUsersGrow(cfg: Config, validUrl: string -> UrlResult, n: nat, m: nat, a: Argument)
    requires n <= m && ArgumentOk(cfg, validUrl, n, a)
    ensures ArgumentOk(cfg, validUrl, m, a)
  {
    forall j | 0 <= j < |a.rebuttals| ensures RebuttalOk(cfg, validUrl, m, a.id, a.rebuttals[j]) {
      assert RebuttalOk(cfg, validUrl, n, a.id, a.rebuttals[j]);
    }
  }

  /**
   * What the store guarantees of every argument it holds: it is approved
   * exactly when its verdict is valid with a score of at least 70, never
   * pending, and only approved arguments have rebuttals.
   */
  lemma StoredArgumentFacts(cfg: Config, validUrl: string -> UrlResult, users: seq<User>, arguments: seq<Argument>, i: nat)
    requires StoreOk(cfg, validUrl, users, arguments) && i < |arguments|
    ensures var a := arguments[i];
      && (a.status == Approved <==> a.factCheck.isValid && Score(a.factCheck) >= APPROVAL_SCORE)
      && a.status != Pending
      && (a.isVerified <==> a.status == Approved)
      && (a.rebuttals != [] ==> a.status == Approved)
      && |a.sources| >= cfg.minSources
  {
    assert ArgumentOk(cfg, validUrl, |users|, arguments[i]);
  }

  // ---------------------------------------------------------------------
  // Listing
  // ---------------------------------------------------------------------

  /**
   * Whether list_arguments shows `a`: the status filter defaults to
   * "approved" and an empty one matches everything; a category filter
   * applies only when it is not empty.
   */
  predicate Listed(a: Argument, status: Option<string>, category: Option<string>)
    ensures status.None? ==>
      (Listed(a, status, category) <==> a.status == Approved && (Given(category) ==> a.category == category))
    ensures status == Some("") ==>
      (Listed(a, status, category) <==> (Given(category) ==> a.category == category))
    ensures Listed(a, status, category) && Given(category) ==> a.category == category
  {
    var wanted := status.GetOr("approved");
    && (wanted == "" || StatusName(a.status) == wanted)
    && (!Given(category) || a.category == category)
  }

  /** The arguments the filters keep, in store order. */
  function Selected(arguments: seq<Argument>, status: Option<string>, category: Option<string>): (r: seq<Argument>)
    ensures forall a :: multiset(r)[a] == if Listed(a, status, category) then multiset(arguments)[a] else 0
    ensures forall a :: a in r <==> a in arguments && Listed(a, status, category)
  {
    if arguments == [] then []
    else
      var rest := Selected(arguments[..|arguments| - 1], status, category);
      var last := arguments[|arguments| - 1];
      assert arguments == arguments[..|arguments| - 1] + [last];
      assert multiset(arguments) == multiset(arguments[..|arguments| - 1]) + multiset{last};
      if Listed(last, status, category) then rest + [last] else rest
  }

  /** Without a status filter, only approved arguments are listed. */
  lemma DefaultListingIsApproved(arguments: seq<Argument>, category: Option<string>)
    ensures forall a :: a in Selected(arguments, None, category) ==> a.status == Approved
  {
  }

  /** An empty status and no category list every argument. */
  lemma {:induction false} EmptyStatusListsAll(arguments: seq<Argument>)
    ensures Selected(arguments, Some(""), None) == arguments
  {
    if arguments != [] {
      var init, last := arguments[..|arguments| - 1], arguments[|arguments| - 1];
      EmptyStatusListsAll(init);
      assert Listed(last, Some(""), None);
      assert arguments == init + [last];
    }
  }

  /** Newest first: created_at never increases along the list. */
  predicate NewestFirst(s: seq<Argument>) {
    forall i, j :: 0 <= i < j < |s| ==> s[i].createdAt >= s[j].createdAt
  }

  function InsertNewestFirst(sorted: seq<Argument>, a: Argument): (r: seq<Argument>)
    requires NewestFirst(sorted)
    ensures NewestFirst(r)
    ensures multiset(r) == multiset(sorted) + multiset{a}
    ensures r[0] == a || (sorted != [] && r[0] == sorted[0])
  {
    if sorted == [] then [a]
    else if sorted[0].createdAt <= a.createdAt then [a] + sorted
    else
      var rest := InsertNewestFirst(sorted[1..], a);
      assert sorted == [sorted[0]] + sorted[1..];
      PrependNewestFirst(sorted[0], rest);
      [sorted[0]] + rest
  }

  /** An argument no older than the head of a newest-first list can go in front of it. */
  lemma PrependNewestFirst(x: Argument, s: seq<Argument>)
    requires NewestFirst(s) && (s != [] ==> s[0].createdAt <= x.createdAt)
    ensures NewestFirst([x] + s)
  {
    forall j | 0 < j < |[x] + s| ensures x.createdAt >= ([x] + s)[j].createdAt {
      assert ([x] + s)[j] == s[j - 1];
    }
  }

  /** `order_by(created_at.desc())`: a newest-first arrangement of the same arguments. */
  function SortNewestFirst(s: seq<Argument>): (r: seq<Argument>)
    ensures NewestFirst(r)
    ensures multiset(r) == multiset(s)
  {
    if s == [] then []
    else
      assert s == s[..|s| - 1] + [s[|s| - 1]];
      InsertNewestFirst(SortNewestFirst(s[..|s| - 1]), s[|s| - 1])
  }

  // ---------------------------------------------------------------------
  // The store
  // ---------------------------------------------------------------------

  /** Some user already has this username or this email. */
  predicate Taken(users: seq<User>, username: string, email: string) {
    exists i :: 0 <= i < |users| && (users[i].username == username || users[i].email == email)
  }

  class Store {
    const cfg: Config
    const validUrl: string -> UrlResult
    var users: seq<User>
    var arguments: seq<Argument>
    var rebuttalCount: nat

    ghost predicate Valid()
      reads this
    {
      StoreOk(cfg, validUrl, users, arguments)
    }

    constructor (cfg: Config, validUrl: string -> UrlResult)
      ensures Valid()
      ensures this.cfg == cfg && this.validUrl == validUrl
      ensures users == [] && arguments == [] && rebuttalCount == 0
    {
      this.cfg := cfg;
      this.validUrl := validUrl;
      users := [];
      arguments := [];
      rebuttalCount := 0;
    }

    /**
     * create_user: both fields are required; a username or email already in
     * use is a conflict; otherwise exactly one user, with the next id, is added.
     */
    method CreateUser(req: UserRequest, now: int) returns (r: Result<User, ApiError>)
      requires Valid()
      modifies this
      ensures Valid()
      ensures arguments == old(arguments) && rebuttalCount == old(rebuttalCount)
      ensures !Given(req.username) || !Given(req.email) ==> r == Failure(MissingField(UsernameAndEmail))
      ensures Given(req.username) && Given(req.email) && Taken(old(users), req.username.value, req.email.value)
        ==> r == Failure(DuplicateUser)
      ensures r.Failure? ==> users == old(users)
      ensures r.Success? <==> Given(req.username) && Given(req.email) && !Taken(old(users), req.username.value, req.email.value)
      ensures r.Success? ==>
        && r.value == User(|old(users)| + 1, req.username.value, req.email.value, now)
        && users == old(users) + [r.value]
    {
      if !Given(req.username) || !Given(req.email) {
        return Failure(MissingField(UsernameAndEmail));
      }
      var username, email := req.username.value, req.email.value;
      if Taken(users, username, email) {
        return Failure(DuplicateUser);
      }
      var user := User(|users| + 1, username, email, now);
      forall i | 0 <= i < |arguments| ensures ArgumentOk(cfg, validUrl, |users| + 1, arguments[i]) {
        ArgumentOkAsUsersGrow(cfg, validUrl, |users|, |users| + 1, arguments[i]);
      }
      users := users + [user];
      return Success(user);
    }

    /** list_arguments: the arguments the filters keep, newest first. */
    function ListArguments(status: Option<string>, category: Option<string>): (r: seq<Argument>)
      reads this
      ensures NewestFirst(r)
      ensures multiset(r) == multiset(Selected(arguments, status, category))
      ensures forall a :: a in r <==> a in arguments && Listed(a, status, category)
    {
      var r := SortNewestFirst(Selected(arguments, status, category));
      assert forall a :: a in r <==> a in multiset(r);
      r
    }

    /**
     * submit_argument: when a check fails, its error and no change; otherwise
     * exactly one new argument, appended with the next id, holding the
     * submitted fields and sources, the verdict and the decision on it.
     */
    method SubmitArgument(req: ArgumentRequest, now: int, judge: Prompt -> JudgeReply) returns (r: Result<Argument, ApiError>)
      requires Valid()
      modifies this
      ensures Valid()
      ensures users == old(users) && rebuttalCount == old(rebuttalCount)
      ensures r.Failure? <==> ArgumentRejection(cfg, users, req, validUrl).Some?
      ensures r.Failure? ==> ArgumentRejection(cfg, users, req, validUrl) == Some(r.error) && arguments == old(arguments)
      ensures r.Success? ==>
        && ArgumentAdmissible(cfg, users, req, validUrl)
        && arguments == old(arguments) + [r.value]
        && r.value.id == |old(arguments)| + 1
        && r.value.title == req.title.value
        && r.value.content == req.content.value
        && r.value.category == req.category
        && r.value.userId == req.userId.value
        && r.value.createdAt == now
        && |r.value.sources| == |req.sources.value|
        && (forall i :: 0 <= i < |r.value.sources| ==> Copies(r.value.sources[i], req.sources.value[i]))
        && r.value.factCheck == CheckArgument(cfg.apiKey, req.content.value, req.sources.value, judge)
        && Decide(r.value.factCheck) == Decision(r.value.status, r.value.isVerified)
        && r.value.rebuttals == []
      ensures r.Success? && !Configured(cfg.apiKey) ==>
        r.value.status == Rejected && !r.value.isVerified && r.value.factCheck.score == Some(0)
    {
      if !Given(req.title) {
        return Failure(MissingField(Title));
      }
      if !Given(req.content) {
        return Failure(MissingField(Content));
      }
      if !GivenId(req.userId) {
        return Failure(MissingField(UserId));
      }
      if req.sources.None? || req.sources.value == [] || |req.sources.value| < cfg.minSources {
        return Failure(InsufficientSources);
      }
      var content := req.content.value;
      var contentLength := |content|;
      if contentLength < cfg.minLength {
        return Failure(ContentTooShort);
      }
      if contentLength > cfg.maxLength {
        return Failure(ContentTooLong);
      }
      var userId := req.userId.value;
      if !UserExists(users, userId) {
        return Failure(UserNotFound);
      }
      var sources := req.sources.value;
      var sourceValidation := ValidateSources(sources, validUrl);
      assert sourceValidation == ValidatedSources(sources, validUrl);
      var invalidSources := InvalidSources(sourceValidation);
      if invalidSources != [] {
        return Failure(InvalidSourceUrls(invalidSources));
      }
      assert forall i :: 0 <= i < |sources| ==> sourceValidation[i].isValidUrl;
      var stored := StoreSources(sources);
      var factCheck := CheckArgument(cfg.apiKey, content, sources, judge);
      var decision := Decide(factCheck);
      var argument := Argument(|arguments| + 1, req.title.value, content, req.category, userId, now,
                               decision.status, decision.isVerified, factCheck, stored, []);
      UserExistsInRange(users, userId);
      assert ArgumentOk(cfg, validUrl, |users|, argument);
      arguments := arguments + [argument];
      r := Success(argument);
    }

    /**
     * submit_rebuttal: when a check fails, its error and no change; otherwise
     * exactly one new rebuttal, with the next rebuttal id, appended to the
     * rebuttals of the argument answered, and no other record changed.
     */
    method SubmitRebuttal(argumentId: int, req: RebuttalRequest, now: int, judge: Prompt -> JudgeReply)
      returns (r: Result<Rebuttal, ApiError>)
      requires Valid()
      modifies this
      ensures Valid()
      ensures users == old(users)
      ensures r.Failure? <==> RebuttalRejection(cfg, users, old(arguments), argumentId, req, validUrl).Some?
      ensures r.Failure? ==>
        && RebuttalRejection(cfg, users, old(arguments), argumentId, req, validUrl) == Some(r.error)
        && arguments == old(arguments) && rebuttalCount == old(rebuttalCount)
      ensures r.Success? ==>
        && RebuttalAdmissible(cfg, users, old(arguments), argumentId, req, validUrl)
        && var i := FindArgument(old(arguments), argumentId).value;
        && arguments == old(arguments)[i := old(arguments)[i].(rebuttals := old(arguments)[i].rebuttals + [r.value])]
        && rebuttalCount == old(rebuttalCount) + 1
        && r.value.id == rebuttalCount
        && r.value.argumentId == argumentId
        && r.value.userId == req.userId.value
        && r.value.content == req.content.value
        && r.value.createdAt == now
        && |r.value.sources| == |req.sources.value|
        && (forall k :: 0 <= k < |r.value.sources| ==> Copies(r.value.sources[k], req.sources.value[k]))
        && r.value.factCheck == CheckRebuttal(cfg.apiKey, req.content.value, old(arguments)[i].content, req.sources.value, judge)
        && Decide(r.value.factCheck) == Decision(r.value.status, r.value.isVerified)
      ensures r.Success? && !Configured(cfg.apiKey) ==>
        r.value.status == Rejected && !r.value.isVerified && r.value.factCheck.score == Some(0)
    {
      var found := FindArgument(arguments, argumentId);
      if found.None? {
        return Failure(ArgumentNotFound);
      }
      var index := found.value;
      var argument := arguments[index];
      if argument.status != Approved {
        return Failure(ArgumentNotRebuttable);
      }
      if !Given(req.content) {
        return Failure(MissingField(Content));
      }
      if !GivenId(req.userId) {
        return Failure(MissingField(UserId));
      }
      if req.sources.None? || req.sources.value == [] || |req.sources.value| < cfg.minSources {
        return Failure(InsufficientSources);
      }
      var userId := req.userId.value;
      if !UserExists(users, userId) {
        return Failure(UserNotFound);
      }
      var content := req.content.value;
      var sources := req.sources.value;
      var sourceValidation := ValidateSources(sources, validUrl);
      assert sourceValidation == ValidatedSources(sources, validUrl);
      var invalidSources := InvalidSources(sourceValidation);
      if invalidSources != [] {
        return Failure(InvalidSourceUrls(invalidSources));
      }
      assert forall i :: 0 <= i < |sources| ==> sourceValidation[i].isValidUrl;
      var stored := StoreSources(sources);
      var factCheck := CheckRebuttal(cfg.apiKey, content, argument.content, sources, judge);
      var decision := Decide(factCheck);
      var rebuttal := Rebuttal(rebuttalCount + 1, argumentId, userId, content, now,
                               decision.status, decision.isVerified, factCheck, stored);
      UserExistsInRange(users, userId);
      assert RebuttalOk(cfg, validUrl, |users|, argument.id, rebuttal);
      var updated := argument.(rebuttals := argument.rebuttals + [rebuttal]);
      assert ArgumentOk(cfg, validUrl, |users|, argument);
      assert ArgumentOk(cfg, validUrl, |users|, updated);
      arguments := arguments[index := updated];
      rebuttalCount := rebuttalCount + 1;
      r := Success(rebuttal);
    }
  }
  /**
   * A session with no API key: a user is created, submits an argument that
   * passes every check, and it is stored rejected with score 0; a rebuttal
   * to it is then refused because the argument is not approved.
   */
  method UnconfiguredSession(judge: Prompt -> JudgeReply)
    returns (user: Result<User, ApiError>, argument: Result<Argument, ApiError>, rebuttal: Result<Rebuttal, ApiError>)
    ensures user.Success? && user.value.id == 1
    ensures argument.Success? && argument.value.status == Rejected && !argument.value.isVerified
    ensures argument.value.factCheck.score == Some(0) && !argument.value.factCheck.isValid
    ensures rebuttal == Failure(ArgumentNotRebuttable)
  {
    var validUrl := (u: string) => if u != "" then ValidTrue else ValidationFailure;
    var store := new Store(Defaults(None), validUrl);
    user := store.CreateUser(UserRequest(Some("alice"), Some("alice@example.com")), 1);
    var source := SourceInput(Str("https://example.com"), Str("Report"), Absent);
    var content := seq(100, _ => 'x');
    var req := ArgumentRequest(Some("Claim"), Some(content), None, Some(1), Some([source, source]));
    assert store.users[0].id == 1;
    assert AllUrlsValid([source, source], validUrl);
    argument := store.SubmitArgument(req, 2, judge);
    var answer := RebuttalRequest(Some("Counterpoint"), Some(1), Some([source, source]));
    rebuttal := store.SubmitRebuttal(1, answer, 3, judge);
  }
}
