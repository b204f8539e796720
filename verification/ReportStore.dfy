/** Submitting a report touches the reporter's stake record and the query's time series. */
module ReportStore {
  import opened Prelude
  import L = ReportLog
  import O = Oracle
  import P = Pallet
  import R = StakingReports
  import Solvency
  import S = Staking
  import St = StakingStore

  /** Checks the value, the nonce, the stake and the lock, then appends the report. */
  method SubmitValue(
    oracle: O.Oracle, staking: St.StakingStore, now: Timestamp, reporter: UserId, value: Value, nonce: nat,
    stakeAmount: nat) returns (r: Result<()>)
    requires oracle.Valid() && L.WellTimed(oracle.log, now) && staking.Valid(now)
    modifies oracle, staking`stakers
    ensures oracle.Valid() && staking.Valid(now)
    ensures var spec := P.ReportAdded(
        old(oracle.log), old(staking.Contents()), now, reporter, value, nonce, stakeAmount);
      && (spec.Ok? ==> r.Ok? && (oracle.log, staking.Contents()) == spec.value)
      && (spec.Err? ==> r == Err(spec.error))
    ensures r.Err? ==> oracle.log == old(oracle.log) && staking.Contents() == old(staking.Contents())
    ensures r.Ok? <==>
      && value != [] && (nonce == 0 || nonce == |old(oracle.log)|)
      && (forall i :: 0 <= i < |old(oracle.log)| ==> old(oracle.log)[i].time != now)
      && reporter in old(staking.stakers)
      && var record := old(staking.stakers)[reporter];
         && 0 < stakeAmount <= record.staked && record.lastReport <= now
         && R.Unlocked(record, stakeAmount, now)
  {
    hide O.Oracle.Valid, O.Represents, S.RecordReport, L.FindBelow, Solvency.StakingInv, R.Unlocked;
    if L.Find(oracle.log, now).None? {
      L.NotFoundIsNew(oracle.log, now, |oracle.log|);
    }
    if value == [] {
      return Err(InvalidValue);
    }
    CountsReports(oracle);
    if nonce != oracle.count && nonce != 0 {
      return Err(InvalidNonce);
    }
    var stakers := staking.stakers;
    r := staking.RecordReport(reporter, stakeAmount, now);
    if r.Err? {
      return;
    }
    var index := oracle.SubmitValue(now, reporter, value, nonce);
    if index.Err? {
      staking.stakers := stakers; // rolled back
      r := Err(index.error);
    }
  }

  lemma CountsReports(oracle: O.Oracle)
    requires oracle.Valid()
    ensures oracle.count == |oracle.log|
  {
  }
}
