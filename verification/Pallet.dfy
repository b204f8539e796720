/** The whole pallet as a state machine: one storage, one clock, one asset, all calls interleaved. */
module Pallet {
  import opened Prelude
  import L = ReportLog
  import O = Oracle
  import B = TipBook
  import T = TipHistory
  import F = Feeds
  import S = Staking
  import G = Governance

  /** The runtime's constants that no call changes. */
  datatype Config = Config(fee: nat, maxSeries: nat, maxClaims: nat)

  /** A feed is identified by its query and its parameters. */
  datatype FeedId = FeedId(
    query: QueryId, reward: nat, startTime: Timestamp, interval: nat, window: nat,
    priceThreshold: nat, increasePerSecond: nat)

  /** What is stored about one query. */
  datatype Query = Query(log: L.Log, book: B.Book, funded: bool)

  datatype State = State(
    now: Timestamp, stakeAmount: nat, disputeFee: nat,
    queries: map<QueryId, Query>, feeds: map<FeedId, F.Feed>, feedClaims: map<FeedId, set<Timestamp>>,
    fundedFeeds: set<FeedId>, userTips: map<UserId, nat>,
    staking: S.State, gov: G.State, balances: Balances)

  const NO_QUERY := Query([], [], false)

  function QueryOf(s: State, q: QueryId): Query {
    if q in s.queries then s.queries[q] else NO_QUERY
  }

  function ClaimsOf(s: State, f: FeedId): set<Timestamp> {
    if f in s.feedClaims then s.feedClaims[f] else {}
  }

  function TipsOf(s: State, u: UserId): nat {
    if u in s.userTips then s.userTips[u] else 0
  }

  function ReportsOf(s: State, u: UserId): nat {
    if u in s.staking.stakers then s.staking.stakers[u].reports else 0
  }

  function EnvFor(s: State, u: UserId): S.Env {
    S.Env(s.now, s.stakeAmount, s.gov.voteCount, G.TallyOf(s.gov, u))
  }

  datatype Call =
    | Advance(seconds: nat)
    | SetParameters(stakeAmount: nat, disputeFee: nat)
    | Submit(who: UserId, query: QueryId, value: Value, nonce: nat)
    | Tip(who: UserId, query: QueryId, amount: nat)
    | ClaimTips(who: UserId, query: QueryId, timestamps: seq<Timestamp>)
    | SetupFeed(who: UserId, feed: FeedId, amount: nat)
    | FundFeed(who: UserId, feed: FeedId, amount: nat)
    | ClaimFeed(who: UserId, feed: FeedId, timestamps: seq<Timestamp>)
    | AddRewards(who: UserId, amount: nat)
    | BeginDispute(who: UserId, dispute: G.DisputeId, hasBeneficiary: bool)
    | CastVote(who: UserId, dispute: G.DisputeId, choice: Option<bool>)
    | SendVotes(order: seq<G.DisputeId>, max: nat, delivered: set<G.DisputeId>)
    | Deposit(who: UserId, amount: nat, address: nat)
    | RequestWithdraw(who: UserId, amount: nat, address: nat)
    | Withdrawn(who: UserId, amount: nat)
    | Slash(who: UserId, amount: nat)
    | TallyVotes(dispute: G.DisputeId, result: G.VoteResult)
    | ExecuteVote(dispute: G.DisputeId)

  // ---- the calls ----

  /** A submitted report: the log and the staker's record afterwards. */
  function ReportAdded(
    log: L.Log, staking: S.State, now: Timestamp, who: UserId, value: Value, nonce: nat, stakeAmount: nat)
    : Result<(L.Log, S.State)>
  {
    var index := O.Submitted(log, now, value, nonce);
    if index.Err? && index.error != TimestampAlreadyReported then Err(index.error)
    else
      var staking' :- S.RecordReport(staking, who, stakeAmount, now);
      if index.Err? then Err(index.error)
      else Ok((log + [L.Entry(now, who, value, false)], staking'))
  }

  function Submitted(s: State, who: UserId, q: QueryId, value: Value, nonce: nat): Result<State> {
    var query := QueryOf(s, q);
    var (log, staking) :- ReportAdded(query.log, s.staking, s.now, who, value, nonce, s.stakeAmount);
    Ok(s.(staking := staking, queries := s.queries[q := query.(log := log)]))
  }

  function Tipped(s: State, who: UserId, q: QueryId, amount: nat): Result<State> {
    if amount == 0 then Err(InvalidAmount)
    else
      var query := QueryOf(s, q);
      var last := L.LastTime(query.log);
      var book := B.AddTip(query.book, last, s.now, amount);
      var funded := query.funded || B.CurrentTip(book, last) > 0;
      var l :- Transfer(s.balances, User(who), TipsAccount, amount);
      Ok(s.(queries := s.queries[q := query.(book := book, funded := funded)],
            userTips := s.userTips[who := TipsOf(s, who) + amount], balances := l))
  }

  /** Pays a claim out of the tips account: the reporter's part, and the fee to the staking rewards. */
  function PayClaim(cfg: Config, staking: S.State, l: Balances, who: UserId, amount: nat, now: Timestamp)
    : Result<(S.State, Balances)>
  {
    var fee := F.FeeOf(amount, cfg.fee);
    if fee > amount then Err(Underflow)
    else
      var l' :- Transfer(l, TipsAccount, User(who), amount - fee);
      S.AddRewards(staking, l', TipsAccount, fee, now)
  }

  /** A claim of one-time tips: the book afterwards, the amount, and the payment. */
  function ClaimedTips(
    cfg: Config, book: B.Book, log: L.Log, staking: S.State, l: Balances, now: Timestamp, who: UserId,
    ts: seq<Timestamp>): Result<(B.Book, nat, S.State, Balances)>
  {
    if book == [] then Err(NoTipsSubmitted)
    else
      var (book', amount) :- T.ClaimAll(book, log, now, ts, who);
      var (staking', l') :- PayClaim(cfg, staking, l, who, amount, now);
      Ok((book', amount, staking', l'))
  }

  function TipsClaimed(cfg: Config, s: State, who: UserId, q: QueryId, ts: seq<Timestamp>): Result<State> {
    var query := QueryOf(s, q);
    var (book, amount, staking, l) :- ClaimedTips(cfg, query.book, query.log, s.staking, s.balances, s.now, who, ts);
    var funded := query.funded && B.CurrentTip(book, L.LastTime(query.log)) > 0;
    Ok(s.(queries := s.queries[q := query.(book := book, funded := funded)], staking := staking, balances := l))
  }

  function FeedSetUp(s: State, f: FeedId): Result<State> {
    if f in s.feeds then Err(FeedAlreadyExists)
    else if f.reward == 0 then Err(InvalidReward)
    else if f.interval == 0 then Err(InvalidInterval)
    else if f.window >= f.interval then Err(InvalidWindow)
    else
      var feed := F.Feed(f.reward, 0, f.startTime, f.interval, f.window, f.priceThreshold, f.increasePerSecond);
      Ok(s.(feeds := s.feeds[f := feed]))
  }

  function FeedFunded(s: State, who: UserId, f: FeedId, amount: nat): Result<State> {
    if f !in s.feeds then Err(InvalidFeed)
    else if amount == 0 then Err(InvalidAmount)
    else
      var l :- Transfer(s.balances, User(who), TipsAccount, amount);
      var feed := s.feeds[f];
      Ok(s.(feeds := s.feeds[f := feed.(balance := feed.balance + amount)], fundedFeeds := s.fundedFeeds + {f},
            userTips := s.userTips[who := TipsOf(s, who) + amount], balances := l))
  }

  /** A claim of feed rewards: the amount and the payment. */
  function ClaimedRewards(
    cfg: Config, feed: F.Feed, log: L.Log, claimed: set<Timestamp>, staking: S.State, l: Balances, now: Timestamp,
    who: UserId, ts: seq<Timestamp>): Result<(nat, S.State, Balances)>
  {
    var amount :- F.ClaimFeed(feed, log, claimed, now, ts, who);
    var (staking', l') :- PayClaim(cfg, staking, l, who, amount, now);
    Ok((amount, staking', l'))
  }

  function FeedClaimed(cfg: Config, s: State, who: UserId, f: FeedId, ts: seq<Timestamp>): Result<State> {
    if f !in s.feeds then Err(InvalidFeed)
    else
      var feed := s.feeds[f];
      var (amount, staking, l) :- ClaimedRewards(cfg, feed, QueryOf(s, f.query).log, ClaimsOf(s, f), s.staking,
        s.balances, s.now, who, ts);
      Ok(s.(feeds := s.feeds[f := feed.(balance := SatSub(feed.balance, amount))],
            feedClaims := s.feedClaims[f := F.Add(ClaimsOf(s, f), ts)],
            fundedFeeds := if amount == feed.balance then s.fundedFeeds - {f} else s.fundedFeeds,
            staking := staking, balances := l))
  }

  function DisputeBegun(cfg: Config, s: State, who: UserId, id: G.DisputeId, hasBeneficiary: bool): Result<State> {
    var query := QueryOf(s, id.query);
    var (gov, log, l) :- G.BeginDispute(s.gov, query.log, s.balances, s.now, who, id, hasBeneficiary,
      s.disputeFee, s.stakeAmount, cfg.maxSeries, s.staking.stakers.Keys);
    Ok(s.(gov := gov, queries := s.queries[id.query := query.(log := log)], balances := l))
  }

  /** The due votes with the rounds that are pending for them. */
  function DueRounds(gov: G.State, order: seq<G.DisputeId>): (r: seq<(G.DisputeId, nat)>)
    ensures |r| == |order|
    ensures forall i :: 0 <= i < |order| ==>
      r[i] == (order[i], if order[i] in gov.pending then gov.pending[order[i]].round else 0)
  {
    seq(|order|, i requires 0 <= i < |order| =>
      (order[i], if order[i] in gov.pending then gov.pending[order[i]].round else 0))
  }

  /** One call on the whole pallet; a failed call is rolled back. */
  ghost function Apply(cfg: Config, s: State, c: Call): Result<State> {
    match c
    case Advance(seconds) => Ok(s.(now := s.now + seconds))
    case SetParameters(stakeAmount, disputeFee) => Ok(s.(stakeAmount := stakeAmount, disputeFee := disputeFee))
    case Submit(who, q, value, nonce) => Submitted(s, who, q, value, nonce)
    case Tip(who, q, amount) => Tipped(s, who, q, amount)
    case ClaimTips(who, q, ts) => TipsClaimed(cfg, s, who, q, ts)
    case SetupFeed(who, f, amount) =>
      var s' :- FeedSetUp(s, f);
      if amount > 0 then FeedFunded(s', who, f, amount) else Ok(s')
    case FundFeed(who, f, amount) => FeedFunded(s, who, f, amount)
    case ClaimFeed(who, f, ts) => FeedClaimed(cfg, s, who, f, ts)
    case AddRewards(who, amount) =>
      var (staking, l) :- S.AddRewards(s.staking, s.balances, User(who), amount, s.now);
      Ok(s.(staking := staking, balances := l))
    case BeginDispute(who, id, hasBeneficiary) => DisputeBegun(cfg, s, who, id, hasBeneficiary)
    case CastVote(who, id, choice) =>
      var gov :- G.CastVote(s.gov, who, id, choice, ReportsOf(s, who), TipsOf(s, who));
      Ok(s.(gov := gov))
    case SendVotes(order, max, delivered) =>
      if !G.IsDueOrder(s.gov.pending, s.now, order) then Err(InvalidVote)
      else Ok(s.(gov := G.SendFirst(s.gov, DueRounds(s.gov, order), Min(max, |order|), delivered)))
    case Deposit(who, amount, address) =>
      var (staking, l) :- S.Deposit(s.staking, s.balances, who, amount, address, EnvFor(s, who));
      Ok(s.(staking := staking, balances := l))
    case RequestWithdraw(who, amount, address) =>
      var (staking, l) :- S.RequestWithdraw(s.staking, s.balances, who, amount, address, EnvFor(s, who));
      Ok(s.(staking := staking, balances := l))
    case Withdrawn(who, amount) =>
      var staking :- S.Withdrawn(s.staking, who, amount, s.now);
      Ok(s.(staking := staking))
    case Slash(who, amount) =>
      var (staking, l) :- S.Slash(s.staking, s.balances, who, amount, EnvFor(s, who));
      Ok(s.(staking := staking, balances := l))
    case TallyVotes(id, result) =>
      var gov :- G.TallyVotes(s.gov, id, result, s.now);
      Ok(s.(gov := gov))
    case ExecuteVote(id) =>
      var (gov, l) :- G.ExecuteVote(s.gov, s.balances, id, s.now);
      Ok(s.(gov := gov, balances := l))
  }
}
