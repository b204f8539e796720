/** Types, constants and the asset ledger shared by every component of the pallet model. */
module Prelude {

  datatype Option<+T> = None | Some(value: T) {
    function GetOr(default: T): T {
      match this
      case Some(v) => v
      case None => default
    }
  }

  /** The pallet's errors that the model can raise, plus the arithmetic ones. */
  datatype Error =
    | ClaimBufferNotPassed | ClaimPeriodExpired | FeedAlreadyExists | InsufficientFeedBalance
    | InvalidAmount | InvalidClaimer | InvalidFeed | InvalidInterval | InvalidReward
    | InvalidTimestamp | InvalidWindow | NoTipsSubmitted | PriceThresholdNotMet
    | TimestampIneligibleForTip | TipAlreadyClaimed | TipAlreadyEarned | ValueConversionError
    | ValueDisputed | InvalidAddress | InsufficientStake | InvalidNonce | InvalidValue
    | MaxDisputedTimeSeriesReached | NoWithdrawalRequested | ReporterTimeLocked
    | TimestampAlreadyReported | WithdrawalPeriodPending | AlreadyVoted
    | DisputeReportingPeriodExpired | DisputeRoundReportingPeriodExpired | InvalidDispute
    | InvalidVote | MaxVoteRoundsReached | NotReporter | NoValueExists | TallyDisputePeriodActive
    | VoteAlreadyExecuted | VoteAlreadySent | VoteAlreadyTallied | VoteNotTallied
    | VotingPeriodActive | Overflow | Underflow | DivisionByZero | FundsUnavailable

  datatype Result<+T> = Ok(value: T) | Err(error: Error) {
    predicate IsFailure() {
      Err?
    }

    function PropagateFailure<U>(): Result<U>
      requires Err?
    {
      Err(error)
    }

    function Extract(): T
      requires Ok?
    {
      value
    }
  }

  type Timestamp = nat
  type QueryId = nat
  type UserId = nat
  type Value = seq<Byte>
  newtype Byte = b: int | 0 <= b < 256

  const HOURS: nat := 3_600
  const DAYS: nat := 24 * HOURS
  const WEEKS: nat := 7 * DAYS
  const REPORTING_LOCK: nat := 12 * HOURS
  const MAX_VOTE_ROUNDS: nat := 20
  const MAX_ITERATIONS: nat := 32

  const U16_MAX: nat := 0xFFFF
  const U32_MAX: nat := 0xFFFF_FFFF
  const BALANCE_MAX: nat := 0xFFFF_FFFF_FFFF_FFFF_FFFF_FFFF_FFFF_FFFF
  const U256_MAX: nat := 0xFFFF_FFFF_FFFF_FFFF_FFFF_FFFF_FFFF_FFFF_FFFF_FFFF_FFFF_FFFF_FFFF_FFFF_FFFF_FFFF

  function Min(a: nat, b: nat): nat {
    if a < b then a else b
  }

  function SatSub(a: nat, b: nat): nat {
    if a < b then 0 else a - b
  }

  function SatAdd32(a: nat, b: nat): nat {
    Min(a + b, U32_MAX)
  }

  /** Users and the pallet's three sub-accounts; no user is a sub-account. */
  datatype Account = User(id: UserId) | TipsAccount | DisputeAccount | StakingAccount

  type Balances = map<Account, nat>

  function Balance(l: Balances, a: Account): nat {
    if a in l then l[a] else 0
  }

  function SetBalance(l: Balances, a: Account, amount: nat): Balances {
    l[a := amount]
  }

  /** Moves `amount` or fails; the model's only reason to fail is missing funds. */
  function Transfer(l: Balances, from: Account, to: Account, amount: nat): (r: Result<Balances>)
    ensures r.Ok? <==> amount <= Balance(l, from)
    ensures r.Err? ==> r.error == FundsUnavailable
    ensures r.Ok? && from != to ==>
      && Balance(r.value, from) == Balance(l, from) - amount
      && Balance(r.value, to) == Balance(l, to) + amount
    ensures r.Ok? && from == to ==> Balance(r.value, from) == Balance(l, from)
    ensures r.Ok? ==> forall a :: a != from && a != to ==> Balance(r.value, a) == Balance(l, a)
  {
    if Balance(l, from) < amount then Err(FundsUnavailable)
    else
      var debited := SetBalance(l, from, Balance(l, from) - amount);
      Ok(SetBalance(debited, to, Balance(debited, to) + amount))
  }

  /** The fungible asset, updated in place. */
  class Ledger {
    var balances: Balances

    constructor (initial: Balances)
      ensures balances == initial
    {
      balances := initial;
    }

    method Move(from: Account, to: Account, amount: nat) returns (ok: bool)
      modifies this
      ensures ok == Transfer(old(balances), from, to, amount).Ok?
      ensures balances == if ok then Transfer(old(balances), from, to, amount).value else old(balances)
    {
      var available := Balance(balances, from);
      ok := amount <= available;
      if ok {
        balances := balances[from := available - amount];
        balances := balances[to := Balance(balances, to) + amount];
      }
    }
  }
}
