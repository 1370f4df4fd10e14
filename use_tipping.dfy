/** The tip request pipeline of `useTipping`: validating the SOL amount,
    the ordered guards of `sendTip`, and the classification of a failure
    reported by the wallet that signs and sends the transaction.

    Everything `sendTip` awaits or constructs outside this file is an input:
    the number `parseFloat` read from the amount text, the outcome of
    decoding the recipient's public key, the balance query, the transaction
    builder and the wallet's sign-and-send call. */
module Tipping {
  import opened JsValues
  import opened JsStrings

  /** A public key in its base58 text form. */
  type Address = string

  const MinimumTipSol: real := 0.001
  const LamportsPerSol: real := 1000000000.0
  const EstimatedFeeLamports: real := 5000.0

  /** Every way `sendTip` can fail, one constructor per `throw`. */
  datatype TipError =
    | NotConnected
    | InvalidAmount
    | BelowMinimum
    | BadRecipient(cause: Thrown)         // `new PublicKey(...)` threw
    | SelfTip
    | BalanceUnavailable(cause: Thrown)   // `getBalance` rejected
    | InsufficientBalance(balance: nat)
    | InsufficientForFees(balance: nat, required: real)
    | BuildFailed(cause: Thrown)          // `createTransaction` rejected
    | SignerCancelled
    | SignerRejected
    | SignerTimedOut
    | SignerInsufficientFunds
    | SignerFailed(message: string)
    | SignerUnknown

  /** The object `sendTip` resolves with. */
  datatype TipReceipt = TipReceipt(signature: string, amount: real, from: Address, to: Address)

  /** The calls `sendTip` makes outside the process, in the order it makes them. */
  datatype NetworkCall = GetBalance | CreateTransaction | SignAndSend

  /** What the world answers to one `sendTip` call. */
  datatype Environment = Environment(
    amount: Number,             // parseFloat(solAmount)
    recipient: Call<Address>,   // new PublicKey(recipientPublicKey), read back as text
    balance: Call<nat>,         // connection.getBalance(from), in lamports
    built: Call<nat>,           // createTransaction(...), its minContextSlot
    signed: Call<string>)       // signAndSendTransaction(transaction, minContextSlot)

  /** The settled promise of one `sendTip` call and the network calls it made. */
  datatype TipAttempt = TipAttempt(outcome: Result<TipReceipt, TipError>, calls: seq<NetworkCall>)

  // ---------------------------------------------------------------------
  // Messages

  // The longer texts are written as a few literal pieces each, so that
  // facts about their characters can be established piece by piece.
  const NotConnectedMessage := "Please connect " + "your wallet first"
  const InvalidAmountMessage := "Invalid SOL amount"
  const BelowMinimumMessage := "Minimum tip amount " + "is 0.001 SOL"
  const SelfTipMessage := "You cannot tip yourself"
  const CancelledMessage := "Transaction was " + "cancelled" + ". Please try again."
  const RejectedMessage := "Transaction was " + "rejected" + " by user."
  const TimedOutMessage := "Transaction timed " + "out. Please check " + "your connection " + "and try again."
  const FeesMessage := "Insufficient balance " + "for transaction fees. " + "Please add more SOL."
  const FailedPrefix := "Transaction " + "failed: "
  const HavePrefix := "Insufficient balance. " + "You have "
  const FeesHavePrefix := "Insufficient balance " + "for tip + fees. " + "You have "
  const NeedInfix := " SOL, need ~"

  /** A lamport amount shown in SOL with four decimals. */
  function SolText(lamports: real): (s: string)
    requires lamports >= 0.0
    ensures |s| > 0 && forall k :: 0 <= k < |s| ==> IsNumeral(s[k])
  {
    ToFixed4(lamports / LamportsPerSol)
  }

  /** The value `sendTip` rejects with for each error. */
  function ThrownBy(e: TipError): (t: Thrown)
    requires e.InsufficientForFees? ==> e.required >= 0.0
    ensures e.BadRecipient? || e.BalanceUnavailable? || e.BuildFailed? || t.Error?
  {
    match e
    case NotConnected => Error(NotConnectedMessage)
    case InvalidAmount => Error(InvalidAmountMessage)
    case BelowMinimum => Error(BelowMinimumMessage)
    case BadRecipient(cause) => cause
    case SelfTip => Error(SelfTipMessage)
    case BalanceUnavailable(cause) => cause
    case InsufficientBalance(balance) =>
      Error(HavePrefix + SolText(balance as real) + " SOL")
    case InsufficientForFees(balance, required) =>
      Error(FeesHavePrefix + SolText(balance as real) + NeedInfix + SolText(required) + " SOL")
    case BuildFailed(cause) => cause
    case SignerCancelled => Error(CancelledMessage)
    case SignerRejected => Error(RejectedMessage)
    case SignerTimedOut => Error(TimedOutMessage)
    case SignerInsufficientFunds => Error(FeesMessage)
    case SignerFailed(message) => Error(FailedPrefix + message)
    case SignerUnknown => Error(FailedPrefix + "Unknown error")
  }

  // ---------------------------------------------------------------------
  // First matching rule

  /** The result of the first rule whose pattern the message includes, if any. */
  function FirstMatch<R>(message: string, rules: seq<(string, R)>): (r: Option<R>)
    ensures r.None? <==> forall k :: 0 <= k < |rules| ==> !Includes(message, rules[k].0)
    ensures r.Some? ==>
      exists k :: && 0 <= k < |rules|
                  && Includes(message, rules[k].0)
                  && rules[k].1 == r.value
                  && forall j :: 0 <= j < k ==> !Includes(message, rules[j].0)
  {
    if |rules| == 0 then None
    else if Includes(message, rules[0].0) then Some(rules[0].1)
    else
      var r := FirstMatch(message, rules[1..]);
      assert forall k :: 1 <= k < |rules| ==> rules[k] == rules[1..][k - 1];
      r
  }

  // ---------------------------------------------------------------------
  // parseSolAmount

  /** The amount is a number above zero (neither NaN nor infinite below). */
  predicate Positive(n: Number)
  {
    n.PosInfinity? || (n.Finite? && n.value > 0.0)
  }

  /** The amount meets the minimum tip. */
  predicate AtLeastMinimum(n: Number)
  {
    n.PosInfinity? || (n.Finite? && n.value >= MinimumTipSol)
  }

  /** `parseSolAmount`, after `parseFloat`: NaN and non-positive amounts are
      invalid, positive amounts under 0.001 SOL are below the minimum, and
      any other amount is returned as it is. */
  function ParseSolAmount(amount: Number): (r: Result<Number, TipError>)
    ensures r == Err(InvalidAmount) <==> !Positive(amount)
    ensures r == Err(BelowMinimum) <==> Positive(amount) && !AtLeastMinimum(amount)
    ensures r.Ok? <==> AtLeastMinimum(amount)
    ensures r.Ok? ==> r.value == amount
  {
    if amount.NaN? || LessOrEqual(amount, Finite(0.0)) then Err(InvalidAmount)
    else if Less(amount, Finite(MinimumTipSol)) then Err(BelowMinimum)
    else Ok(amount)
  }

  // ---------------------------------------------------------------------
  // sendTip

  /** `isConnected`: some wallet account is selected. */
  predicate IsConnected(account: Option<Address>)
  {
    account.Some?
  }

  /** The balance pays for the tip itself. */
  predicate CoversTip(balance: nat, amount: Number)
  {
    amount.Finite? && balance as real >= amount.value * LamportsPerSol
  }

  /** The balance pays for the tip and the estimated network fee. */
  predicate CoversTipAndFee(balance: nat, amount: Number)
  {
    amount.Finite? && balance as real >= amount.value * LamportsPerSol + EstimatedFeeLamports
  }

  /** The checks that run without the network all pass. */
  predicate LocalChecksPass(account: Option<Address>, env: Environment)
  {
    && IsConnected(account)
    && AtLeastMinimum(env.amount)
    && env.recipient.Returned?
    && env.recipient.value != account.value
  }

  /** The classification of a failure thrown by `signAndSendTransaction`:
      the first of "CancellationException", "User rejected", "timeout" and
      "insufficient" found in an `Error`'s message picks the error; any
      other `Error` keeps its message, and any other value is unknown. */
  const SignerRules: seq<(string, TipError)> := [
    ("CancellationException", SignerCancelled),
    ("User rejected", SignerRejected),
    ("timeout", SignerTimedOut),
    ("insufficient", SignerInsufficientFunds)
  ]

  function ClassifySignerFailure(failure: Thrown): (e: TipError)
    ensures failure.NonError? <==> e == SignerUnknown
    ensures e.SignerCancelled? || e.SignerRejected? || e.SignerTimedOut?
            || e.SignerInsufficientFunds? || e.SignerFailed? || e.SignerUnknown?
    ensures e.SignerFailed? ==> failure == Error(e.message)
  {
    if failure.Error? then
      var message := failure.message;
      if Includes(message, "CancellationException") then SignerCancelled
      else if Includes(message, "User rejected") then SignerRejected
      else if Includes(message, "timeout") then SignerTimedOut
      else if Includes(message, "insufficient") then SignerInsufficientFunds
      else SignerFailed(message)
    else SignerUnknown
  }

  /** The wallet failure classification is the first-matching-rule reading
      of `SignerRules`: earlier patterns win, and a message matching none of
      them is kept after "Transaction failed: ". */
  lemma {:induction false} SignerClassificationFollowsRules(failure: Thrown)
    ensures failure.Error? ==>
      ClassifySignerFailure(failure) == match FirstMatch(failure.message, SignerRules)
                                        case Some(kind) => kind
                                        case None => SignerFailed(failure.message)
    ensures ClassifySignerFailure(failure).SignerFailed? ==>
      forall k :: 0 <= k < |SignerRules| ==> !Includes(failure.message, SignerRules[k].0)
  {
    var rules := SignerRules;
    assert rules[1..] == [rules[1], rules[2], rules[3]];
    assert rules[1..][1..] == [rules[2], rules[3]];
    assert rules[1..][1..][1..] == [rules[3]];
    assert rules[1..][1..][1..][1..] == [];
  }

  /** `sendTip(recipientPublicKey, solAmount)` with the selected account. */
  function SendTip(account: Option<Address>, env: Environment): (t: TipAttempt)
    // no wallet: refused before anything else, without any network call
    ensures !IsConnected(account) ==> t == TipAttempt(Err(NotConnected), [])
    ensures t.outcome == Err(NotConnected) ==> !IsConnected(account)
    // an invalid or too small amount is reported before the recipient is looked at
    ensures IsConnected(account) && !AtLeastMinimum(env.amount) ==>
              t == TipAttempt(Err(ParseSolAmount(env.amount).error), [])
    // tipping oneself is refused before the balance is queried
    ensures t.outcome == Err(SelfTip) <==>
              IsConnected(account) && AtLeastMinimum(env.amount) && env.recipient == Returned(account.value)
    ensures t.outcome == Err(SelfTip) ==> t.calls == []
    // a key that does not decode is reported as the decoder's failure
    ensures IsConnected(account) && AtLeastMinimum(env.amount) && env.recipient.Threw? ==>
              t == TipAttempt(Err(BadRecipient(env.recipient.thrown)), [])
    // the network is used only once every local check has passed
    ensures t.calls != [] ==> LocalChecksPass(account, env) && t.calls[0] == GetBalance
    ensures t.calls == [] || t.calls == [GetBalance] || t.calls == [GetBalance, CreateTransaction]
              || t.calls == [GetBalance, CreateTransaction, SignAndSend]
    // a failed balance query is passed through
    ensures LocalChecksPass(account, env) && env.balance.Threw? ==>
              t == TipAttempt(Err(BalanceUnavailable(env.balance.thrown)), [GetBalance])
    // the two balance checks
    ensures t.outcome.Err? && t.outcome.error.InsufficientBalance? ==>
              && t.calls == [GetBalance]
              && env.balance == Returned(t.outcome.error.balance)
              && !CoversTip(t.outcome.error.balance, env.amount)
    ensures t.outcome.Err? && t.outcome.error.InsufficientForFees? ==>
              && t.calls == [GetBalance]
              && env.balance == Returned(t.outcome.error.balance)
              && CoversTip(t.outcome.error.balance, env.amount)
              && !CoversTipAndFee(t.outcome.error.balance, env.amount)
              && t.outcome.error.required == env.amount.value * LamportsPerSol + EstimatedFeeLamports
    ensures LocalChecksPass(account, env) && env.balance.Returned? ==>
              (!CoversTip(env.balance.value, env.amount) <==> t.outcome == Err(InsufficientBalance(env.balance.value)))
    ensures LocalChecksPass(account, env) && env.balance.Returned? ==>
              (CoversTip(env.balance.value, env.amount) && !CoversTipAndFee(env.balance.value, env.amount)
               <==> t.outcome.Err? && t.outcome.error.InsufficientForFees?)
    // the transaction is built only when the balance covers tip and fee
    ensures CreateTransaction in t.calls ==>
              env.balance.Returned? && CoversTipAndFee(env.balance.value, env.amount)
    // a failed build is passed through
    ensures LocalChecksPass(account, env) && env.balance.Returned? && CoversTipAndFee(env.balance.value, env.amount)
            && env.built.Threw? ==>
              t == TipAttempt(Err(BuildFailed(env.built.thrown)), [GetBalance, CreateTransaction])
    // the wallet is asked to sign only when the balance covers tip and fee
    ensures SignAndSend in t.calls ==>
              env.balance.Returned? && CoversTipAndFee(env.balance.value, env.amount) && env.built.Returned?
    // once every check passes and the transaction is built, the wallet is asked to sign
    ensures LocalChecksPass(account, env) && env.balance.Returned? && CoversTipAndFee(env.balance.value, env.amount)
            && env.built.Returned? ==>
              && t.calls == [GetBalance, CreateTransaction, SignAndSend]
              && (env.signed.Threw? ==> t.outcome == Err(ClassifySignerFailure(env.signed.thrown)))
    // a failing wallet never yields a receipt, and its failure is classified
    ensures SignAndSend in t.calls && env.signed.Threw? ==>
              t.outcome == Err(ClassifySignerFailure(env.signed.thrown))
    // the tip goes through exactly when every check passes and every call returns
    ensures t.outcome.Ok? <==>
              && LocalChecksPass(account, env)
              && env.balance.Returned? && CoversTipAndFee(env.balance.value, env.amount)
              && env.built.Returned? && env.signed.Returned?
    // the receipt
    ensures t.outcome.Ok? ==>
              && t.calls == [GetBalance, CreateTransaction, SignAndSend]
              && account == Some(t.outcome.value.from)
              && env.recipient == Returned(t.outcome.value.to)
              && env.signed == Returned(t.outcome.value.signature)
              && env.amount == Finite(t.outcome.value.amount)
              && t.outcome.value.amount >= MinimumTipSol
              && t.outcome.value.from != t.outcome.value.to
  {
    if account.None? then TipAttempt(Err(NotConnected), [])
    else
      match ParseSolAmount(env.amount)
      case Err(e) => TipAttempt(Err(e), [])
      case Ok(amount) =>
        match env.recipient
        case Threw(cause) => TipAttempt(Err(BadRecipient(cause)), [])
        case Returned(to) =>
          if account.value == to then TipAttempt(Err(SelfTip), [])
          else
            match env.balance
            case Threw(cause) => TipAttempt(Err(BalanceUnavailable(cause)), [GetBalance])
            case Returned(balance) =>
              var tipLamports := Scale(amount, LamportsPerSol);
              var totalRequired := Plus(tipLamports, EstimatedFeeLamports);
              if Less(Finite(balance as real), tipLamports) then
                TipAttempt(Err(InsufficientBalance(balance)), [GetBalance])
              else if Less(Finite(balance as real), totalRequired) then
                TipAttempt(Err(InsufficientForFees(balance, totalRequired.value)), [GetBalance])
              else
                match env.built
                case Threw(cause) => TipAttempt(Err(BuildFailed(cause)), [GetBalance, CreateTransaction])
                case Returned(_) =>
                  var calls := [GetBalance, CreateTransaction, SignAndSend];
                  match env.signed
                  case Threw(failure) => TipAttempt(Err(ClassifySignerFailure(failure)), calls)
                  case Returned(signature) =>
                    TipAttempt(Ok(TipReceipt(signature, amount.value, account.value, to)), calls)
  }

  /** The second balance check is the stronger one: passing it implies
      passing the first. So once the balance is known, exactly one of three
      things happens: the tip error, the fee error, or the transaction is
      built. */
  lemma BalanceChecksAreExclusive(account: Option<Address>, env: Environment)
    requires LocalChecksPass(account, env) && env.balance.Returned?
    ensures CoversTipAndFee(env.balance.value, env.amount) ==> CoversTip(env.balance.value, env.amount)
    ensures var t, b := SendTip(account, env), env.balance.value;
      && (t.outcome == Err(InsufficientBalance(b)) <==> !CoversTip(b, env.amount))
      && (t.outcome.Err? && t.outcome.error.InsufficientForFees? <==> CoversTip(b, env.amount) && !CoversTipAndFee(b, env.amount))
      && (CreateTransaction in t.calls <==> CoversTipAndFee(b, env.amount))
  {
  }

  /** +Infinity passes validation but never reaches the wallet: no balance
      covers it. */
  lemma InfiniteAmountNeverSent(account: Option<Address>, env: Environment)
    requires env.amount.PosInfinity?
    ensures SignAndSend !in SendTip(account, env).calls
    ensures SendTip(account, env).outcome.Err?
  {
  }

  /** The required total a fee error reports is never negative. */
  lemma FeeErrorTotalNonNegative(account: Option<Address>, env: Environment)
    ensures var t := SendTip(account, env);
      t.outcome.Err? && t.outcome.error.InsufficientForFees? ==> t.outcome.error.required >= 0.0
  {
  }

  /** A tip of half a SOL from an account holding two SOL goes through and
      the receipt carries the wallet's signature. */
  lemma HalfSolTipSucceeds(from: Address, to: Address, slot: nat)
    requires from != to
    ensures SendTip(Some(from), Environment(Finite(0.5), Returned(to), Returned(2000000000), Returned(slot), Returned("SIG1")))
            == TipAttempt(Ok(TipReceipt("SIG1", 0.5, from, to)), [GetBalance, CreateTransaction, SignAndSend])
  {
  }
}
