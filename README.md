# OnlyFringe debate backend — a Dafny model

This project models the core of the OnlyFringe debate platform: a small web
service where users submit arguments and rebuttals. Each submission needs at
least two sources. An AI fact-checker judges each one, and only an approved
argument can be rebutted. The model covers:

- **KeyLoader** (`hexstrike_api_loader.py`): how the `KEY=VALUE` key file
  becomes a map.
- **Configuration** (`config.py`): the limits, and where the judge's API key
  comes from.
- **FactChecker** (`fact_checker.py`):
  - per-source URL validation;
  - the source listing that goes to the judge;
  - the fail-closed verdicts when the key is missing or the call raises.
- **Models** (`models.py`): the stored entities and their verification status.
- **App** (`app.py`):
  - user creation;
  - the ordered, fail-fast admission checks of `submit_argument` and
    `submit_rebuttal`;
  - the approval rule (valid and score at least 70);
  - the filtered, newest-first listing.

The store itself is the class `App.Store`. The submit methods are proved
equal to the pure admission functions `App.ArgumentRejection` and
`App.RebuttalRejection`. They keep the store invariant `App.StoreOk`:

- Users have the ids 1, 2, …, and usernames and emails are unique.
- Every stored argument is admissible.
- Every stored record's status is the decision on its stored verdict.
- Only approved arguments carry rebuttals.

Some parts of the system are parameters:

- The URL library (`validators.url`) is `validUrl: string -> UrlResult`.
- The judge (the OpenAI call and `json.loads`) is
  `judge: Prompt -> JudgeReply`. A reply is either a verdict or the message
  of an exception.
- The clock is a `now: int` argument.
- The key file is `None` when it does not exist, and otherwise its lines.
- The environment variable is an `Option<string>`.

Files:

- `wrappers.dfy`: Option and Result.
- `text.dfy`: the Python string operations the source uses:
  - `strip`;
  - `'=' in line` and `line.split('=', 1)`, both modelled by `FirstIndex`;
  - `"\n".join`, modelled by `Join`.

  It also defines `Split`, Python's unbounded `s.split(sep)`. The source
  never calls it. It is the inverse of `Join`, used only to state that the
  source listing has one line per source.
- `key_loader.dfy`, `configuration.dfy`, `fact_checker.dfy`, `models.dfy`,
  `app.dfy`.

## Model

| member | source | states |
|---|---|---|
| Text.Strip | hexstrike_api_loader.py:17 | the stripped text has no leading or trailing whitespace |
| Text.StripIsTrimmedInfix | hexstrike_api_loader.py:17 | `strip` only removes whitespace, from both ends: the result is an infix of the input with only whitespace around it |
| Text.StripLeavesStripped | hexstrike_api_loader.py:22 | stripping text that is already stripped changes nothing |
| Text.StripAddsNothing | hexstrike_api_loader.py:21-22 | stripping introduces no character, so a key cut before the first `=` holds no `=` after stripping |
| Text.FirstIndex | hexstrike_api_loader.py:20-21 | `None` exactly when the character is absent; otherwise the position of its first occurrence |
| Text.FirstIndexAt | hexstrike_api_loader.py:21 | a position holding the character, with none before it, is the one found |
| Text.Join | fact_checker.py:38-41 | `"\n".join`: no pieces give the empty string, and otherwise the result starts with the first piece |
| Text.Split | fact_checker.py:38-41 | not called by the source; the inverse of the join at these lines: splitting gives at least one piece, and no piece holds the separator |
| Text.SplitJoin | fact_checker.py:38-41 | the join at these lines loses nothing: splitting the joined pieces gives them back when none holds the separator |
| KeyLoader.ParseLine | hexstrike_api_loader.py:17-22 | a line gives nothing exactly when its stripped text is empty, starts with `#`, or has no `=` |
| KeyLoader.SplitAtFirstEquals | hexstrike_api_loader.py:21-22 | a line `pre=post` with no `=` in `pre` gives key `strip(pre)` and value `strip(post)` |
| KeyLoader.ParseLines | hexstrike_api_loader.py:16-22 | the map of a file read from first line to last; the loop is proved equal to it, and the lemmas below state its properties |
| KeyLoader.ParseLinesStep | hexstrike_api_loader.py:16-22 | reading one more line applies that line's pair to the map read so far |
| KeyLoader.AtMostOneKeyPerLine | hexstrike_api_loader.py:20-22 | each line defines at most one key, so the map has no more keys than the file has lines |
| KeyLoader.LoadApiKeys | hexstrike_api_loader.py:11-23 | a missing file gives the empty map; otherwise the loop's map equals the left fold `ParseLines` over the lines |
| KeyLoader.IgnoredLineIrrelevant | hexstrike_api_loader.py:18-20 | a blank, comment or `=`-less line can be removed anywhere without changing the map |
| KeyLoader.KeyFromSomeLine | hexstrike_api_loader.py:20-22 | every key in the map, with its value, comes from some line of the file |
| KeyLoader.LastLineWins | hexstrike_api_loader.py:22 | a key's value is the one on the last line that defines that key |
| KeyLoader.ParsedPairIsTrimmed | hexstrike_api_loader.py:21-22 | a parsed key has no `=`, and key and value are both stripped |
| KeyLoader.KeysAreTrimmed | hexstrike_api_loader.py:16-22 | every key of the loaded map is stripped and free of `=`, and so is its value stripped |
| KeyLoader.ValueMayContainEquals | hexstrike_api_loader.py:21 | the split is at the first `=` only: `A=b=c` defines `A` as `b=c` |
| Configuration.Defaults | config.py:23-25 | the shipped limits are 2 sources and 100 to 5000 characters |
| Configuration.ApiKey | config.py:17 | the key file's non-empty entry wins; otherwise the environment's value is used; the judge is configured exactly when either is non-empty |
| FactChecker.CheckSource | fact_checker.py:177-189 | a missing url becomes `""` and a missing title null. The url is valid exactly when it is a non-empty string the URL library answers `True` for. The description counts when it is a non-empty string |
| FactChecker.MissingUrlNeverValid | fact_checker.py:181 | a missing, null or empty url is invalid, and the URL library is not consulted for it |
| FactChecker.ValidatedSources | fact_checker.py:166-191 | one check per source, in the input order |
| FactChecker.ValidateSources | fact_checker.py:176-191 | the loop's results are one check per source, in order |
| FactChecker.SourceLine | fact_checker.py:39 | a source's line starts with `- `, and stays on one line when no member holds a newline |
| FactChecker.SourcesText | fact_checker.py:38-41 | the listing is empty exactly when there are no sources, and otherwise starts with the first source's line |
| FactChecker.SourcesTextHasOneLinePerSource | fact_checker.py:38-41 | with no newline inside a member, the listing has exactly one `- title: url - description` line per source, in order |
| FactChecker.NotConfigured | fact_checker.py:29-35 | the no-key verdict is invalid with score 0, one issue and one recommendation |
| FactChecker.CallFailed | fact_checker.py:83-89 | the error verdict is invalid with score 0, one recommendation, and one issue from which the exception's message can be read back |
| FactChecker.CheckArgument | fact_checker.py:18-89 | no key gives the invalid score-0 "not configured" verdict; a raised call gives the invalid score-0 verdict naming the error; otherwise the judge's verdict on the argument's prompt |
| FactChecker.CheckRebuttal | fact_checker.py:91-164 | as CheckArgument, with the original argument passed to the judge |
| FactChecker.NoJudgeWithoutKey | fact_checker.py:29-35 | without a key the judge is never consulted: any two judges give the same verdicts |
| Models.StatusName | models.py:40 | each status has its own stored name, so the listing's status filter selects exactly one status |
| App.Decide | app.py:172-177 | approved exactly when the verdict is valid with a score of at least 70 (a missing score counts as 0); never pending; verified exactly when approved |
| App.UnconfiguredJudgeRejects | fact_checker.py:29-35 | fail-closed: with no key, every argument and rebuttal is rejected with score 0 |
| App.FailedJudgeCallRejects | fact_checker.py:83-89 | fail-closed: a judge call that raised leads to rejection with score 0 |
| App.HttpStatus | app.py:55-223 | missing user or argument answers 404, a duplicate user 409, and every other error 400 |
| App.InvalidSources | app.py:139 | the invalid-source list holds exactly the failing checks, and is empty exactly when every url is valid |
| App.InvalidPositions | app.py:139 | the failing checks' positions, increasing, and all of them |
| App.InvalidSourcesInOrder | app.py:139 | the invalid-source list is the failing checks in input order |
| App.ArgumentRejection | app.py:106-144 | no error exactly for an admissible submission; a URL error lists every invalid source |
| App.ArgumentChecksInOrder | app.py:106-144 | the checks run as title, content, user id, sources, minimum length, maximum length, user, URLs, and the first failing one decides the error |
| App.EmptySourceListRefused | app.py:116 | an empty source list is refused even where no minimum count applies |
| App.DefaultLengthBoundsInclusive | app.py:121-130 | 100 and 5000 characters pass; 99 is too short and 5001 too long |
| App.FindArgument | app.py:191 | finds an argument with the requested id, and `None` exactly when there is none |
| App.RebuttalRejection | app.py:191-223 | no error exactly for an admissible rebuttal; not-found exactly when no argument has the id; a URL error lists every invalid source |
| App.RebuttalChecksInOrder | app.py:199-223 | for a found, approved argument the checks run as content, user id, sources, user, URLs, and the first failing one decides the error (so too few sources is `InsufficientSources`, a 400) |
| App.UnapprovedArgumentNotRebuttable | app.py:193-195 | a rebuttal to an unapproved argument is refused, whatever the request holds |
| App.RebuttalLengthUnchecked | app.py:199-223 | a rebuttal's content length never matters, only that the content is non-empty |
| App.StoreSources | app.py:155-161 | one stored source per submitted source, in order, copying url, title and description |
| App.UserExistsInRange | app.py:133-135 | with ids 1, 2, …, a user id resolves exactly when it is in range |
| App.ArgumentOkAsUsersGrow | app.py:66-68 | adding users keeps every stored argument well-formed |
| App.StoredArgumentFacts | app.py:172-177 | every stored argument is approved exactly when its verdict is valid with a score of at least 70; it is never pending; only approved arguments have rebuttals; it has at least the minimum sources |
| App.DefaultListingIsApproved | app.py:82-88 | without a status filter, only approved arguments are listed |
| App.EmptyStatusListsAll | app.py:87-90 | an empty status and no category list every argument |
| App.InsertNewestFirst | app.py:92 | inserting into a newest-first list keeps it newest-first and adds exactly that one argument |
| App.SortNewestFirst | app.py:92 | the result is newest-first and a permutation of the input |
| App.Listed | app.py:82-90 | with no status given only approved arguments pass; an empty status filters nothing; a non-empty category must match |
| App.Selected | app.py:85-90 | each argument that passes the filters is kept as often as it is stored, and every other argument is dropped |
| App.Store.constructor | app.py:13-26 | an empty store with the given limits and URL library satisfies the invariant |
| App.Store.CreateUser | app.py:50-70 | both fields are required; a username or email in use is a conflict; otherwise one user with the next id is appended; arguments are unchanged; the invariant is kept |
| App.Store.ListArguments | app.py:79-93 | newest-first; a permutation of the filtered arguments; an argument appears exactly when it passes the filters |
| App.Store.SubmitArgument | app.py:101-186 | fails exactly as `ArgumentRejection` says and then changes nothing; otherwise appends one argument with the next id, the submitted fields and sources, the verdict and the decision on it; without a key that argument is rejected with score 0; the invariant is kept |
| App.Store.SubmitRebuttal | app.py:188-265 | fails exactly as `RebuttalRejection` says and then changes nothing; otherwise appends one rebuttal to that argument alone, with the next rebuttal id, the sources, the verdict and the decision on it; without a key that rebuttal is rejected with score 0; the invariant is kept |
| App.UnconfiguredSession | app.py:101-265 | one concrete session with no key: a new user's argument passes every check and is stored rejected with score 0, and a rebuttal to it is then refused as not rebuttable |

## Left out

- HTTP: the routing, `jsonify`, JSON parsing of requests and the exact error
  message texts. Errors are the `ApiError` cases with their status codes.
- Read-only endpoints: `get_user`, `get_argument` and `health_check`, and the
  `to_dict` serialisations. They only read one record.
- The judge's prompt text, model name and temperature. The prompt is
  modelled by its inputs: the content, the original argument and the source
  listing.
- The judge's reply:
  - A reply that is JSON but not an object, or that lacks `is_valid`, is not
    modelled.
  - A verdict always has a boolean validity. Its score is optional, and a
    missing score counts as 0, as `get('score', 0)` does.
  - Left out: a float score, and a null or string score. With a truthy
    `is_valid`, a null or string score raises a `TypeError` at the
    comparison with 70.
  - A verdict keeps only validity, score, issues and recommendations. The
    reply's free-text members are not modelled, such as
    `factual_accuracy`, `logical_coherence`, `addresses_original` and
    `evidence_quality`. The code stores them in `ai_fact_check_result`
    together with the rest.
- Request values of the wrong JSON type, such as a numeric title or a string
  `user_id`. Request fields are optional strings, ids and source lists.
- Whitespace: only the characters Python's `str.isspace` accepts are
  stripped.
- Timestamps: `created_at` is an abstract integer from the caller. Timezones
  and `updated_at` are not modelled.
- Database behaviour: transactions, cascading deletes, concurrent requests and
  the `is_valid` column of stored sources, which the code never sets.
- Module-level side effects: the startup warning when the key is missing, and
  reading the key file and environment at import time.
- Uniqueness of rebuttal ids: the counter `rebuttalCount` hands them out in
  increasing order, but the store invariant does not record it.
