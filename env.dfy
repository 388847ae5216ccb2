/** The world outside the virtual machine, as the executors see it through their configuration:
    the asset transactor (`withdraw_asset`, `deposit_asset`, `transfer_asset`, `can_check_in`,
    `check_in`) and the transactional processor. The transactor's real balances are not
    modelled: the world is a ledger of the calls that took effect, and an oracle `answer`
    decides, from the ledger so far, whether a fallible call succeeds. */
module Env {
  import opened Xcm

  /** One call into the asset transactor. */
  datatype Call =
    | WithdrawCall(asset: Asset, who: Location)
    | DepositCall(asset: Asset, who: Location)
    | TransferCall(asset: Asset, from: Location, to: Location)
    | CanCheckInCall(origin: Location, asset: Asset)
    | CheckInCall(origin: Location, asset: Asset)

  /** Decides a fallible call: `None` is success, `Some(e)` the transactor's error. */
  type Oracle = (seq<Call>, Call) -> Option<XcmError>

  // ---- Sequences of calls ------------------------------------------------------------------

  function Withdrawals(assets: seq<Asset>, who: Location): (r: seq<Call>)
    ensures |r| == |assets| && forall i | 0 <= i < |r| :: r[i] == WithdrawCall(assets[i], who)
  {
    seq(|assets|, i requires 0 <= i < |assets| => WithdrawCall(assets[i], who))
  }

  function Deposits(assets: seq<Asset>, who: Location): (r: seq<Call>)
    ensures |r| == |assets| && forall i | 0 <= i < |r| :: r[i] == DepositCall(assets[i], who)
  {
    seq(|assets|, i requires 0 <= i < |assets| => DepositCall(assets[i], who))
  }

  function Transfers(assets: seq<Asset>, from: Location, to: Location): (r: seq<Call>)
    ensures |r| == |assets| && forall i | 0 <= i < |r| :: r[i] == TransferCall(assets[i], from, to)
  {
    seq(|assets|, i requires 0 <= i < |assets| => TransferCall(assets[i], from, to))
  }

  function CheckIns(assets: seq<Asset>, origin: Location): (r: seq<Call>)
    ensures |r| == |assets| && forall i | 0 <= i < |r| :: r[i] == CheckInCall(origin, assets[i])
  {
    seq(|assets|, i requires 0 <= i < |assets| => CheckInCall(origin, assets[i]))
  }

  /** Making the fallible calls `cs` in order, each recorded when it succeeds, stopping at the
      first error (the `?` in the transactor loops): the ledger afterwards and the error. */
  function AttemptAll(answer: Oracle, ledger: seq<Call>, cs: seq<Call>): (seq<Call>, Option<XcmError>)
    decreases |cs|
  {
    if cs == [] then (ledger, None)
    else
      var e := answer(ledger, cs[0]);
      if e.Some? then (ledger, e) else AttemptAll(answer, ledger + [cs[0]], cs[1..])
  }

  /** The number of leading calls that succeed. */
  function Succeeding(answer: Oracle, ledger: seq<Call>, cs: seq<Call>): (k: nat)
    ensures k <= |cs|
    decreases |cs|
  {
    if cs == [] || answer(ledger, cs[0]).Some? then 0
    else 1 + Succeeding(answer, ledger + [cs[0]], cs[1..])
  }

  /** The calls succeed one after the other up to the first failure: the ledger gains exactly
      the succeeding prefix, the error (if any) is the first failing call's, and every call of
      the prefix was answered with success on the ledger it met. */
  lemma {:induction false} AttemptAllMeaning(answer: Oracle, ledger: seq<Call>, cs: seq<Call>)
    ensures var k := Succeeding(answer, ledger, cs);
            && AttemptAll(answer, ledger, cs).0 == ledger + cs[..k]
            && (AttemptAll(answer, ledger, cs).1.None? <==> k == |cs|)
            && (k < |cs| ==> AttemptAll(answer, ledger, cs).1 == answer(ledger + cs[..k], cs[k]))
            && (forall i | 0 <= i < k :: answer(ledger + cs[..i], cs[i]).None?)
    decreases |cs|
  {
    if cs != [] && answer(ledger, cs[0]).None? {
      var rest := cs[1..];
      AttemptAllMeaning(answer, ledger + [cs[0]], rest);
      var k := Succeeding(answer, ledger, cs);
      assert ledger + [cs[0]] + rest[..k - 1] == ledger + cs[..k];
      if k < |cs| {
        assert rest[k - 1] == cs[k];
      }
      forall i | 0 <= i < k ensures answer(ledger + cs[..i], cs[i]).None? {
        if i > 0 {
          assert ledger + [cs[0]] + rest[..i - 1] == ledger + cs[..i];
          assert rest[i - 1] == cs[i];
        } else {
          assert ledger + cs[..i] == ledger;
        }
      }
    }
  }

  /** `can_check_in` then `check_in` for each asset, stopping at the first refused check: the
      query leaves no trace, the check-in is recorded and cannot fail. */
  function CheckInAll(answer: Oracle, ledger: seq<Call>, origin: Location, assets: seq<Asset>): (seq<Call>, Option<XcmError>)
    decreases |assets|
  {
    if assets == [] then (ledger, None)
    else
      var e := answer(ledger, CanCheckInCall(origin, assets[0]));
      if e.Some? then (ledger, e)
      else CheckInAll(answer, ledger + [CheckInCall(origin, assets[0])], origin, assets[1..])
  }

  /** The number of leading assets that pass `can_check_in`, each asked on the ledger holding
      the check-ins of the assets before it. */
  function Admitted(answer: Oracle, ledger: seq<Call>, origin: Location, assets: seq<Asset>): (k: nat)
    ensures k <= |assets|
    decreases |assets|
  {
    if assets == [] || answer(ledger, CanCheckInCall(origin, assets[0])).Some? then 0
    else 1 + Admitted(answer, ledger + [CheckInCall(origin, assets[0])], origin, assets[1..])
  }

  /** The teleport check admits the assets one after the other up to the first refusal: the
      ledger gains exactly the check-ins of the admitted prefix, the check passes iff every
      asset is admitted, a refusal's error is the refusing `can_check_in` answer, and every
      admitted asset was accepted on the ledger holding the check-ins before it. */
  lemma CheckInAllMeaning(answer: Oracle, ledger: seq<Call>, origin: Location, assets: seq<Asset>)
    ensures var k := Admitted(answer, ledger, origin, assets);
            var cs := CheckIns(assets, origin);
            && CheckInAll(answer, ledger, origin, assets).0 == ledger + cs[..k]
            && (CheckInAll(answer, ledger, origin, assets).1.None? <==> k == |assets|)
            && (k < |assets| ==>
                  CheckInAll(answer, ledger, origin, assets).1 == answer(ledger + cs[..k], CanCheckInCall(origin, assets[k])))
            && (forall i | 0 <= i < k :: answer(ledger + cs[..i], CanCheckInCall(origin, assets[i])).None?)
  {
    CheckInAllOutcome(answer, ledger, origin, assets);
    AdmittedAccepted(answer, ledger, origin, assets);
  }

  lemma {:induction false} CheckInAllOutcome(answer: Oracle, ledger: seq<Call>, origin: Location, assets: seq<Asset>)
    ensures var k := Admitted(answer, ledger, origin, assets);
            var cs := CheckIns(assets, origin);
            && CheckInAll(answer, ledger, origin, assets).0 == ledger + cs[..k]
            && (CheckInAll(answer, ledger, origin, assets).1.None? <==> k == |assets|)
            && (k < |assets| ==>
                  CheckInAll(answer, ledger, origin, assets).1 == answer(ledger + cs[..k], CanCheckInCall(origin, assets[k])))
    decreases |assets|
  {
    if assets == [] || answer(ledger, CanCheckInCall(origin, assets[0])).Some? {
      assert ledger + CheckIns(assets, origin)[..0] == ledger;
    } else {
      var rest := assets[1..];
      var c := CheckInCall(origin, assets[0]);
      CheckInAllOutcome(answer, ledger + [c], origin, rest);
      var k := Admitted(answer, ledger, origin, assets);
      CheckInsCons(assets, origin);
      PrefixAfter(ledger, c, CheckIns(rest, origin), k);
      if k < |assets| {
        assert rest[k - 1] == assets[k];
      }
    }
  }

  lemma {:induction false} AdmittedAccepted(answer: Oracle, ledger: seq<Call>, origin: Location, assets: seq<Asset>)
    ensures var cs := CheckIns(assets, origin);
            forall i | 0 <= i < Admitted(answer, ledger, origin, assets) ::
              answer(ledger + cs[..i], CanCheckInCall(origin, assets[i])).None?
    decreases |assets|
  {
    if assets != [] && answer(ledger, CanCheckInCall(origin, assets[0])).None? {
      var cs := CheckIns(assets, origin);
      var rest := assets[1..];
      var c := CheckInCall(origin, assets[0]);
      AdmittedAccepted(answer, ledger + [c], origin, rest);
      CheckInsCons(assets, origin);
      forall i | 0 <= i < Admitted(answer, ledger, origin, assets)
        ensures answer(ledger + cs[..i], CanCheckInCall(origin, assets[i])).None?
      {
        if i > 0 {
          PrefixAfter(ledger, c, CheckIns(rest, origin), i);
          assert rest[i - 1] == assets[i];
        } else {
          assert ledger + cs[..i] == ledger;
        }
      }
    }
  }

  lemma CheckInsCons(assets: seq<Asset>, origin: Location)
    requires assets != []
    ensures CheckIns(assets, origin) == [CheckInCall(origin, assets[0])] + CheckIns(assets[1..], origin)
  {
  }

  /** A prefix of the calls after `c`, seen from before `c`. */
  lemma PrefixAfter(ledger: seq<Call>, c: Call, tail: seq<Call>, i: nat)
    requires 0 < i <= |tail| + 1
    ensures ledger + [c] + tail[..i - 1] == ledger + ([c] + tail)[..i]
  {
    assert ([c] + tail)[..i] == [c] + tail[..i - 1];
  }

  /** The transactional processor's verdict on the ledger: a transactional processor undoes
      every effect of a failed body, a non-transactional one keeps what was done. */
  function Transact(isTransactional: bool, saved: seq<Call>, body: (seq<Call>, Option<XcmError>)): seq<Call>
  {
    if isTransactional && body.1.Some? then saved else body.0
  }

  // ---- The world as updated in place --------------------------------------------------------

  class World {
    var ledger: seq<Call>
    const answer: Oracle

    constructor (answer: Oracle, ledger: seq<Call>)
      ensures this.answer == answer && this.ledger == ledger
    {
      this.answer := answer;
      this.ledger := ledger;
    }

    /** One fallible transactor call, recorded when it succeeds. */
    method Attempt(c: Call) returns (e: Option<XcmError>)
      modifies this
      ensures e == answer(old(ledger), c)
      ensures ledger == if e.None? then old(ledger) + [c] else old(ledger)
    {
      e := answer(ledger, c);
      if e.None? {
        ledger := ledger + [c];
      }
    }

    /** The transactor loop of the executors: the calls in order, stopping at the first error. */
    method AttemptEach(cs: seq<Call>) returns (e: Option<XcmError>)
      modifies this
      ensures (ledger, e) == AttemptAll(answer, old(ledger), cs)
    {
      e := None;
      var i := 0;
      while i < |cs|
        invariant 0 <= i <= |cs|
        invariant e.None?
        invariant AttemptAll(answer, ledger, cs[i..]) == AttemptAll(answer, old(ledger), cs)
      {
        assert cs[i..][1..] == cs[i + 1..];
        e := Attempt(cs[i]);
        if e.Some? {
          return;
        }
        i := i + 1;
      }
    }

    /** The teleport check loop: `can_check_in`, then `check_in`, for each asset. */
    method CheckInEach(origin: Location, assets: seq<Asset>) returns (e: Option<XcmError>)
      modifies this
      ensures (ledger, e) == CheckInAll(answer, old(ledger), origin, assets)
    {
      e := None;
      var i := 0;
      while i < |assets|
        invariant 0 <= i <= |assets|
        invariant e.None?
        invariant CheckInAll(answer, ledger, origin, assets[i..]) == CheckInAll(answer, old(ledger), origin, assets)
      {
        assert assets[i..][1..] == assets[i + 1..];
        e := answer(ledger, CanCheckInCall(origin, assets[i]));
        if e.Some? {
          return;
        }
        ledger := ledger + [CheckInCall(origin, assets[i])];
        i := i + 1;
      }
    }

    /** The end of `TransactionalProcessor::process`: a transactional processor rolls the
        ledger back to `saved` when the body failed. */
    method EndTransaction(isTransactional: bool, saved: seq<Call>, e: Option<XcmError>)
      modifies this
      ensures ledger == Transact(isTransactional, saved, (old(ledger), e))
    {
      if isTransactional && e.Some? {
        ledger := saved;
      }
    }
  }
}
