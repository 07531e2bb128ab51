/**
 * The ingestion orchestrator: per-account fetch, dedup, classify, insert,
 * alert and checkpoint, and the fleet-wide driver. The specification is a
 * set of functions over the store's tables (`Db`); the `Backend` class holds
 * the tables and its methods are proved to follow those functions.
 */
module Ingestion {
  import opened Wrappers
  import opened Types
  import Text
  import opened Classifier
  import opened Alerts

  // ---------------------------------------------------------------------
  // Wire records and fetching
  // ---------------------------------------------------------------------

  datatype RawAuthor = RawAuthor(name: Option<string>, id: Option<string>)

  /**
   * A record as a platform API returns it. Facebook fills `message`, `from`
   * and `createdTime`; Twitter fills `text`, `authorId` and `createdAt`. Any
   * field may be missing.
   */
  datatype RawComment = RawComment(
    id: string,
    message: Option<string>,
    from: Option<RawAuthor>,
    createdTime: Option<string>,
    text: Option<string>,
    authorId: Option<string>,
    createdAt: Option<string>)

  /** What a platform fetch saw: a thrown request or non-OK status, or a JSON body with an optional `data` array. */
  datatype FetchReply = FetchFailed | Fetched(data: Option<seq<RawComment>>)

  /** The fetchers' result: `data.data || []`, and `[]` on any failure. */
  function FetchComments(reply: FetchReply): (r: seq<RawComment>)
    ensures reply.FetchFailed? || reply.data.None? ==> r == []
    ensures reply.Fetched? && reply.data.Some? ==> r == reply.data.value
  {
    match reply
    case FetchFailed => []
    case Fetched(data) =>
      match data
      case Some(items) => items
      case None => []
  }

  // ---------------------------------------------------------------------
  // Language detection
  // ---------------------------------------------------------------------

  /** A character of the Thai block U+0E00..U+0E7F. */
  predicate IsThaiChar(c: char) {
    0x0E00 <= c as int <= 0x0E7F
  }

  /** `/[\u0E00-\u0E7F]/.test(text) ? 'th' : 'en'`. */
  function DetectLanguage(text: string): (r: Language)
    ensures r == Th <==> exists k :: 0 <= k < |text| && IsThaiChar(text[k])
  {
    if text == [] then En
    else if IsThaiChar(text[0]) then Th
    else DetectLanguage(text[1..])
  }

  // ---------------------------------------------------------------------
  // Store queries
  // ---------------------------------------------------------------------

  /** The number of comment rows whose `post_id` is `id`. */
  function CountPostId(rows: seq<CommentRow>, id: string): nat
    decreases |rows|
  {
    if rows == [] then 0
    else (if rows[|rows| - 1].postId == id then 1 else 0) + CountPostId(rows[..|rows| - 1], id)
  }

  /**
   * The dedup query `eq('post_id', id).single()` finds a row only when
   * exactly one row matches; the key is the post id alone.
   */
  predicate IsStored(rows: seq<CommentRow>, id: string) {
    CountPostId(rows, id) == 1
  }

  function CountAccountId(accounts: seq<Account>, id: string): nat
    decreases |accounts|
  {
    if accounts == [] then 0
    else (if accounts[0].id == id then 1 else 0) + CountAccountId(accounts[1..], id)
  }

  function FirstAccount(accounts: seq<Account>, id: string): (r: Option<Account>)
    ensures r.Some? ==> r.value in accounts && r.value.id == id
    ensures r.None? ==> CountAccountId(accounts, id) == 0
    decreases |accounts|
  {
    if accounts == [] then None
    else if accounts[0].id == id then Some(accounts[0])
    else FirstAccount(accounts[1..], id)
  }

  /** The account query `eq('id', id).single()`: a row only when exactly one row has that id. */
  function LookupAccount(accounts: seq<Account>, id: string): (r: Option<Account>)
    ensures r.Some? <==> CountAccountId(accounts, id) == 1
    ensures r.Some? ==> r.value in accounts && r.value.id == id
  {
    if CountAccountId(accounts, id) == 1 then FirstAccount(accounts, id) else None
  }

  /** The checkpoint update `update({last_sync: now}).eq('id', id)`: every row with that id. */
  function SetLastSync(accounts: seq<Account>, id: string, now: int): (r: seq<Account>)
    ensures |r| == |accounts|
  {
    seq(|accounts|, k requires 0 <= k < |accounts| =>
      if accounts[k].id == id then accounts[k].(lastSync := now) else accounts[k])
  }

  predicate IsActive(a: Account) {
    a.isActive
  }

  /** The fleet query `eq('is_active', true)`, in table order. */
  function ActiveAccounts(accounts: seq<Account>): seq<Account> {
    Filter(accounts, IsActive)
  }

  // ---------------------------------------------------------------------
  // One raw comment
  // ---------------------------------------------------------------------

  function ContentOf(raw: RawComment, platform: Platform): Option<string> {
    match platform
    case Facebook => raw.message
    case Twitter => raw.text
  }

  /** Reading the author does not throw: on Facebook it dereferences `from`. */
  predicate AuthorReadable(raw: RawComment, platform: Platform) {
    platform == Twitter || raw.from.Some?
  }

  function AuthorOf(raw: RawComment, platform: Platform): Option<string>
    requires AuthorReadable(raw, platform)
  {
    match platform
    case Facebook => raw.from.value.name
    case Twitter => raw.authorId
  }

  function AuthorIdOf(raw: RawComment, platform: Platform): Option<string>
    requires AuthorReadable(raw, platform)
  {
    match platform
    case Facebook => raw.from.value.id
    case Twitter => raw.authorId
  }

  function TimestampOf(raw: RawComment, platform: Platform): Option<string> {
    match platform
    case Facebook => raw.createdTime
    case Twitter => raw.createdAt
  }

  /** The classifier input built from a raw comment; an undefined text is tested as the word "undefined". */
  function CommentDataOf(raw: RawComment, platform: Platform): CommentData
    requires AuthorReadable(raw, platform)
  {
    var content := ContentOf(raw, platform);
    CommentData(content, AuthorOf(raw, platform), platform, Some(DetectLanguage(Text.JsText(content))))
  }

  /** What the loop body does with one raw comment. */
  datatype Step = Skipped | Dropped | Kept(row: CommentRow)

  /**
   * One iteration of the ingest loop on raw comment `k`: skip a stored post
   * id, drop a comment whose processing throws, otherwise classify it and
   * build its row.
   */
  function Ingest(store: seq<CommentRow>, accountId: string, platform: Platform, raw: RawComment,
                  k: nat, score: Scorer): Step
  {
    if IsStored(store, raw.id) then Skipped
    else if !AuthorReadable(raw, platform) then Dropped
    else
      var data := CommentDataOf(raw, platform);
      match score(k, data)
      case Failure(_) => Dropped
      case Success(a) =>
        Kept(CommentRow(accountId, platform, raw.id, data.content, data.author, AuthorIdOf(raw, platform),
                        TimestampOf(raw, platform), a.sentiment, a.risk, a.confidence, a))
  }

  function KeptRows(s: Step): seq<CommentRow> {
    match s
    case Kept(row) => [row]
    case _ => []
  }

  /** The rows the loop has collected after the first `n` raw comments. */
  function Processed(store: seq<CommentRow>, accountId: string, platform: Platform, raws: seq<RawComment>,
                     score: Scorer, n: nat): seq<CommentRow>
    requires n <= |raws|
    decreases n
  {
    if n == 0 then []
    else Processed(store, accountId, platform, raws, score, n - 1)
         + KeptRows(Ingest(store, accountId, platform, raws[n - 1], n - 1, score))
  }

  // ---------------------------------------------------------------------
  // One account
  // ---------------------------------------------------------------------

  /** The tables the pipeline reads and writes. */
  datatype Db = Db(accounts: seq<Account>, comments: seq<CommentRow>, alerts: seq<AlertRow>)

  /**
   * Everything outside the store that one account sync depends on: whether
   * the account query itself returned an error, the fetch, the classifier
   * (`ScorerOf(reply, parse)` for the model's answers `reply`), whether each
   * write succeeded, and the clock.
   */
  datatype SyncEnv = SyncEnv(
    lookupFailed: bool,
    fetch: FetchReply,
    score: Scorer,
    insertError: Option<string>,
    hateAlertStored: bool,
    spikeAlertStored: bool,
    checkpointStored: bool,
    now: int)

  datatype SyncError = AccountNotFound | InsertFailed(message: string)

  function ErrorMessage(e: SyncError): string {
    match e
    case AccountNotFound => "Social account not found"
    case InsertFailed(m) => m
  }

  /** The alerts one evaluation adds; nothing when its own account query finds no row. */
  function AlertsFor(accounts: seq<Account>, accountId: string, batch: seq<CommentRow>,
                     hateStored: bool, spikeStored: bool): seq<AlertRow>
  {
    match LookupAccount(accounts, accountId)
    case None => []
    case Some(a) => CreatedAlerts(a.userId, accountId, batch, hateStored, spikeStored)
  }

  /** `processAndStoreComments`: the new tables and the processed count or the error thrown. */
  function SyncAccount(db: Db, accountId: string, platform: Platform, env: SyncEnv): (Db, Result<nat, SyncError>)
  {
    if env.lookupFailed || LookupAccount(db.accounts, accountId).None? then (db, Failure(AccountNotFound))
    else
      var raws := FetchComments(env.fetch);
      var processed := Processed(db.comments, accountId, platform, raws, env.score, |raws|);
      if processed != [] && env.insertError.Some? then
        (db, Failure(InsertFailed(env.insertError.value)))
      else
        var alerts :=
          if processed != [] then
            db.alerts + AlertsFor(db.accounts, accountId, processed, env.hateAlertStored, env.spikeAlertStored)
          else db.alerts;
        var accounts := if env.checkpointStored then SetLastSync(db.accounts, accountId, env.now) else db.accounts;
        (Db(accounts, db.comments + processed, alerts), Success(|processed|))
  }

  // ---------------------------------------------------------------------
  // The fleet
  // ---------------------------------------------------------------------

  datatype Outcome =
    | Synced(accountId: string, platform: Platform, commentCount: nat)
    | SyncFailed(accountId: string, platform: Platform, error: string)

  function OutcomeOf(account: Account, r: Result<nat, SyncError>): Outcome {
    match r
    case Success(n) => Synced(account.id, account.platform, n)
    case Failure(e) => SyncFailed(account.id, account.platform, ErrorMessage(e))
  }

  /** The tables and outcomes after syncing the first `n` of the `active` accounts in turn. */
  function SyncPrefix(db: Db, active: seq<Account>, env: string -> SyncEnv, n: nat)
    : (r: (Db, seq<Outcome>))
    requires n <= |active|
    ensures |r.1| == n
    ensures forall k {:trigger r.1[k]} :: 0 <= k < n ==> r.1[k].accountId == active[k].id && r.1[k].platform == active[k].platform
    decreases n
  {
    if n == 0 then (db, [])
    else
      var prev := SyncPrefix(db, active, env, n - 1);
      var a := active[n - 1];
      var step := SyncAccount(prev.0, a.id, a.platform, env(a.id));
      var out := OutcomeOf(a, step.1);
      var outs := prev.1 + [out];
      assert out.accountId == a.id && out.platform == a.platform;
      assert outs[n - 1] == out;
      assert forall k :: 0 <= k < n - 1 ==> outs[k] == prev.1[k];
      (step.0, outs)
  }

  /** `syncAllActiveAccounts`: a failed account query is re-thrown, otherwise one outcome per active account. */
  function SyncAll(db: Db, queryError: Option<string>, env: string -> SyncEnv)
    : (Db, Result<seq<Outcome>, string>)
  {
    match queryError
    case Some(e) => (db, Failure(e))
    case None =>
      var active := ActiveAccounts(db.accounts);
      var (d, outs) := SyncPrefix(db, active, env, |active|);
      (d, Success(outs))
  }

  /** The ingest loop of `processAndStoreComments`: the rows built from the raw comments not yet stored. */
  method CollectRows(store: seq<CommentRow>, accountId: string, platform: Platform, raws: seq<RawComment>,
                     score: Scorer)
    returns (processed: seq<CommentRow>)
    ensures processed == Processed(store, accountId, platform, raws, score, |raws|)
  {
    processed := [];
    for k := 0 to |raws|
      invariant processed == Processed(store, accountId, platform, raws, score, k)
    {
      var raw := raws[k];
      if IsStored(store, raw.id) {
        continue;
      }
      if !AuthorReadable(raw, platform) {
        continue;
      }
      var data := CommentDataOf(raw, platform);
      var analysis := score(k, data);
      if analysis.Failure? {
        continue;
      }
      var a := analysis.value;
      processed := processed + [CommentRow(accountId, platform, raw.id, data.content, data.author,
                                           AuthorIdOf(raw, platform), TimestampOf(raw, platform),
                                           a.sentiment, a.risk, a.confidence, a)];
    }
  }

  // ---------------------------------------------------------------------
  // The store and the service
  // ---------------------------------------------------------------------

  class Backend {
    var accounts: seq<Account>
    var comments: seq<CommentRow>
    var alerts: seq<AlertRow>

    function State(): Db
      reads this
    {
      Db(accounts, comments, alerts)
    }

    constructor (db: Db)
      ensures State() == db
    {
      accounts, comments, alerts := db.accounts, db.comments, db.alerts;
    }

    /** `createAlert`: one insert into the alerts table; a failed insert is only logged. */
    method CreateAlert(alert: AlertRow, stored: bool)
      modifies this`alerts
      ensures alerts == old(alerts) + (if stored then [alert] else [])
    {
      if stored {
        alerts := alerts + [alert];
      }
    }

    /** `checkForAlerts`: runs both rules on `batch` and inserts what fires. */
    method CheckForAlerts(accountId: string, batch: seq<CommentRow>, hateStored: bool, spikeStored: bool)
      modifies this`alerts
      ensures alerts == old(alerts) + AlertsFor(accounts, accountId, batch, hateStored, spikeStored)
    {
      var account := LookupAccount(accounts, accountId);
      if account.None? {
        return;
      }
      var userId := account.value.userId;
      var highRisk := HighRiskComments(batch);
      if |highRisk| > 0 {
        CreateAlert(AlertRow(userId, HighHateSpeech, Critical, HateTitle, HateCountText(|highRisk|),
                             accountId, PostIds(highRisk)), hateStored);
      }
      var negative := NegativeComments(batch);
      if SpikeCondition(batch) {
        CreateAlert(AlertRow(userId, SentimentSpike, High, SpikeTitle, NegativeShareText(|negative|, |batch|),
                             accountId, PostIds(negative)), spikeStored);
      }
    }

    /** `processAndStoreComments` for one account. */
    method ProcessAndStoreComments(socialAccountId: string, platform: Platform, env: SyncEnv)
      returns (r: Result<nat, SyncError>)
      modifies this
      ensures (State(), r) == SyncAccount(old(State()), socialAccountId, platform, env)
    {
      var account := LookupAccount(accounts, socialAccountId);
      if env.lookupFailed || account.None? {
        return Failure(AccountNotFound);
      }
      var rawComments := FetchComments(env.fetch);
      var processed := CollectRows(comments, socialAccountId, platform, rawComments, env.score);
      assert State() == old(State());
      if |processed| > 0 {
        if env.insertError.Some? {
          return Failure(InsertFailed(env.insertError.value));
        }
        comments := comments + processed;
        CheckForAlerts(socialAccountId, processed, env.hateAlertStored, env.spikeAlertStored);
        assert alerts == old(alerts) + AlertsFor(old(accounts), socialAccountId, processed, env.hateAlertStored, env.spikeAlertStored);
      }
      assert comments == old(comments) + processed;
      if env.checkpointStored {
        accounts := SetLastSync(accounts, socialAccountId, env.now);
      }
      r := Success(|processed|);
    }

    /** `syncAllActiveAccounts`: every active account in turn, a failure becoming that account's outcome. */
    method SyncAllActiveAccounts(queryError: Option<string>, env: string -> SyncEnv)
      returns (r: Result<seq<Outcome>, string>)
      modifies this
      ensures (State(), r) == SyncAll(old(State()), queryError, env)
    {
      if queryError.Some? {
        return Failure(queryError.value);
      }
      var active := ActiveAccounts(accounts);
      var results: seq<Outcome> := [];
      for k := 0 to |active|
        invariant (State(), results) == SyncPrefix(old(State()), active, env, k)
      {
        var account := active[k];
        var commentCount := ProcessAndStoreComments(account.id, account.platform, env(account.id));
        results := results + [OutcomeOf(account, commentCount)];
      }
      r := Success(results);
    }
  }
}
