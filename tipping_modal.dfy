/** The tipping modal: its five pieces of state, the handlers that change
    them (`handleTip`, `handleDismiss`, `handleConfirmationClose`, typing an
    amount), the mapping from a caught error to the text shown, and the
    Send button's disabled state and label. */
module TippingModal {
  import opened JsValues
  import opened JsStrings
  import opened Tipping

  const CancelledDisplay := "Transaction was " + "cancelled" + ". Please try again."
  const RejectedDisplay := "Transaction was " + "rejected. " + "Please check your wallet " + "and try again."
  const TimeoutDisplay := "Transaction timed " + "out. Please check " + "your connection " + "and try again."
  const GenericDisplay := "Failed to create tip"

  const SendLabelText := "Send Tip"
  const ProcessingLabelText := "Processing..."
  const ConnectLabelText := "Connect Wallet"

  /** What a display rule does with the message it matches. */
  datatype Shown = Replace(text: string) | AsIs

  /** The modal's error rules, in the order it tries them. */
  const DisplayRules: seq<(string, Shown)> := [
    ("cancelled", Replace(CancelledDisplay)),
    ("rejected", Replace(RejectedDisplay)),
    ("timeout", Replace(TimeoutDisplay)),
    ("insufficient", AsIs)
  ]

  /** The text `handleTip` shows for a value caught from `sendTip`. */
  function DisplayedError(err: Thrown): (shown: string)
    ensures err.NonError? ==> shown == GenericDisplay
    ensures err.Error? ==> shown == err.message || shown == CancelledDisplay
                           || shown == RejectedDisplay || shown == TimeoutDisplay
  {
    if err.Error? then
      var message := err.message;
      if Includes(message, "cancelled") then CancelledDisplay
      else if Includes(message, "rejected") then RejectedDisplay
      else if Includes(message, "timeout") then TimeoutDisplay
      else if Includes(message, "insufficient") then message
      else message
    else GenericDisplay
  }

  /** The display mapping is the first-matching-rule reading of
      `DisplayRules`: "cancelled" wins over "rejected", which wins over
      "timeout", and any other `Error` is shown with its own message. */
  lemma {:induction false} DisplayFollowsRules(err: Thrown)
    ensures err.Error? ==>
      DisplayedError(err) == match FirstMatch<Shown>(err.message, DisplayRules)
                             case Some(Replace(text)) => text
                             case _ => err.message
  {
    var rules := DisplayRules;
    assert rules[1..] == [rules[1], rules[2], rules[3]];
    assert rules[1..][1..] == [rules[2], rules[3]];
    assert rules[1..][1..][1..] == [rules[3]];
    assert rules[1..][1..][1..][1..] == [];
  }

  // ---------------------------------------------------------------------
  // What the user sees for each error of the pipeline

  /** The text the modal shows for each way `sendTip` fails, written per
      error: the wallet's rejection is reworded, a generic wallet failure is
      reworded only when its own message names a cancellation, rejection
      or timeout, errors passed through from the key decoder, the balance
      query and the transaction builder go through the display mapping,
      and every other error is shown exactly as `sendTip` words it. */
  function UserSees(e: TipError): (shown: string)
    requires e.InsufficientForFees? ==> e.required >= 0.0
    ensures !(e.BadRecipient? || e.BalanceUnavailable? || e.BuildFailed? || e.SignerRejected? || e.SignerFailed?) ==>
              shown == ThrownBy(e).message
    ensures e.SignerFailed? ==>
              shown == FailedPrefix + e.message || shown in {CancelledDisplay, RejectedDisplay, TimeoutDisplay}
    ensures e.SignerRejected? ==> shown != ThrownBy(e).message
  {
    match e
    case BadRecipient(cause) => DisplayedError(cause)
    case BalanceUnavailable(cause) => DisplayedError(cause)
    case BuildFailed(cause) => DisplayedError(cause)
    case SignerCancelled => CancelledDisplay
    case SignerRejected => RejectedDisplay
    case SignerFailed(m) =>
      if Includes(m, "cancelled") then CancelledDisplay
      else if Includes(m, "rejected") then RejectedDisplay
      else if Includes(m, "timeout") then TimeoutDisplay
      else FailedPrefix + m
    case _ => ThrownBy(e).message
  }

  /** A text lacking one character of each pattern names none of them. */
  lemma NamesNoPattern(s: string, c1: char, c2: char, c3: char)
    requires c1 in "cancelled" && Lacks(s, c1)
    requires c2 in "rejected" && Lacks(s, c2)
    requires c3 in "timeout" && Lacks(s, c3)
    ensures !Includes(s, "cancelled") && !Includes(s, "rejected") && !Includes(s, "timeout")
  {
    MissingCharExcludes(s, "cancelled", c1);
    MissingCharExcludes(s, "rejected", c2);
    MissingCharExcludes(s, "timeout", c3);
  }

  /** "Transaction failed: " names none of the patterns. */
  lemma FailedPrefixNamesNoPattern()
    ensures !Includes(FailedPrefix, "cancelled")
    ensures !Includes(FailedPrefix, "rejected")
    ensures !Includes(FailedPrefix, "timeout")
  {
    MissingCharExcludes("Transaction ", "cancelled", 'l');
    MissingCharExcludes("failed: ", "cancelled", 'c');
    SpaceJoinedExcludes("Transaction ", "failed: ", "cancelled");
    MissingCharExcludes(FailedPrefix, "rejected", 'j');
    MissingCharExcludes(FailedPrefix, "timeout", 'm');
  }

  /** What follows "Transaction failed: " alone decides whether the modal
      rewords the message. */
  lemma FailedPrefixTransparent(m: string)
    ensures Includes(FailedPrefix + m, "cancelled") <==> Includes(m, "cancelled")
    ensures Includes(FailedPrefix + m, "rejected") <==> Includes(m, "rejected")
    ensures Includes(FailedPrefix + m, "timeout") <==> Includes(m, "timeout")
  {
    FailedPrefixNamesNoPattern();
    IncludesConcat(FailedPrefix, m, "cancelled");
    IncludesConcat(FailedPrefix, m, "rejected");
    IncludesConcat(FailedPrefix, m, "timeout");
  }

  /** The messages `sendTip` words itself before any wallet call name none
      of the patterns. */
  lemma NotConnectedNamesNoPattern()
    ensures !Includes(NotConnectedMessage, "cancelled") && !Includes(NotConnectedMessage, "rejected")
            && !Includes(NotConnectedMessage, "timeout")
  {
    NamesNoPattern(NotConnectedMessage, 'd', 'j', 'm');
  }

  lemma InvalidAmountNamesNoPattern()
    ensures !Includes(InvalidAmountMessage, "cancelled") && !Includes(InvalidAmountMessage, "rejected")
            && !Includes(InvalidAmountMessage, "timeout")
  {
    NamesNoPattern(InvalidAmountMessage, 'c', 'j', 'e');
  }

  lemma BelowMinimumNamesNoPattern()
    ensures !Includes(BelowMinimumMessage, "cancelled") && !Includes(BelowMinimumMessage, "rejected")
            && !Includes(BelowMinimumMessage, "timeout")
  {
    NamesNoPattern(BelowMinimumMessage, 'c', 'j', 'e');
  }

  lemma SelfTipNamesNoPattern()
    ensures !Includes(SelfTipMessage, "cancelled") && !Includes(SelfTipMessage, "rejected")
            && !Includes(SelfTipMessage, "timeout")
  {
    NamesNoPattern(SelfTipMessage, 'd', 'j', 'm');
  }

  /** The wallet's timeout text says "timed out", not "timeout". */
  lemma TimedOutMessageNamesNoTimeout()
    ensures !Includes(TimedOutMessage, "timeout")
  {
    var a, b := "Transaction timed ", "out. Please check " + "your connection " + "and try again.";
    assert TimedOutMessage == a + b;
    MissingCharExcludes(a, "timeout", 'u');
    MissingCharExcludes(b, "timeout", 'm');
    SpaceJoinedExcludes(a, b, "timeout");
  }

  /** The wallet's timeout text names no rejection. */
  lemma TimedOutMessageNamesNoReject()
    ensures !Includes(TimedOutMessage, "rejected")
  {
    MissingCharExcludes(TimedOutMessage, "rejected", 'j');
  }

  /** The wallet's timeout text names no cancellation. */
  lemma TimedOutMessageNamesNoCancel()
    ensures !Includes(TimedOutMessage, "cancelled")
  {
    var a, b, c := "Transaction timed ", "out. Please check ", "your connection " + "and try again.";
    assert TimedOutMessage == a + b + c;
    MissingCharExcludes(a, "cancelled", 'l');
    MissingCharExcludes(b, "cancelled", 'd');
    MissingCharExcludes(c, "cancelled", 'l');
    SpaceJoinedExcludes(a, b, "cancelled");
    SpaceJoinedExcludes(a + b, c, "cancelled");
  }

  /** The wallet's low-funds text names neither a cancellation nor a
      rejection. */
  lemma FeesMessageNamesNoRejection()
    ensures !Includes(FeesMessage, "cancelled")
    ensures !Includes(FeesMessage, "rejected")
  {
    var a, b := "Insufficient balance " + "for transaction fees. ", "Please add more SOL.";
    MissingCharExcludes(a, "cancelled", 'd');
    MissingCharExcludes(b, "cancelled", 'c');
    SpaceJoinedExcludes(a, b, "cancelled");
    MissingCharExcludes(FeesMessage, "rejected", 'j');
  }

  /** The wallet's low-funds text names no timeout. */
  lemma FeesMessageNamesNoTimeout()
    ensures !Includes(FeesMessage, "timeout")
  {
    var a, b := "Insufficient balance " + "for transaction fees. ", "Please add more SOL.";
    MissingCharExcludes(a, "timeout", 'm');
    MissingCharExcludes(b, "timeout", 't');
    SpaceJoinedExcludes(a, b, "timeout");
  }

  /** A rendered amount is digits and a dot, so it lacks every letter. */
  lemma SolTextLacks(lamports: real, c: char)
    requires lamports >= 0.0 && !IsNumeral(c)
    ensures Lacks(SolText(lamports), c)
  {
  }

  /** The first balance message: only digits and a dot are spliced in. */
  lemma BalanceMessageNamesNoPattern(balance: nat)
    ensures var m := ThrownBy(InsufficientBalance(balance)).message;
      !Includes(m, "cancelled") && !Includes(m, "rejected") && !Includes(m, "timeout")
  {
    var have := SolText(balance as real);
    var m := HavePrefix + have + " SOL";
    assert ThrownBy(InsufficientBalance(balance)).message == m;
    forall c | c in "djm"
      ensures Lacks(m, c)
    {
      SolTextLacks(balance as real, c);
      LacksConcat(HavePrefix, have, c);
      LacksConcat(HavePrefix + have, " SOL", c);
    }
    NamesNoPattern(m, 'd', 'j', 'm');
  }

  /** The part of the second balance message after its fixed prefix lacks
      every letter that is not in the " SOL, need ~" infix. */
  lemma FeesBalanceTailLacks(balance: nat, required: real, c: char)
    requires required >= 0.0 && c in "jmc"
    ensures Lacks(SolText(balance as real) + NeedInfix + SolText(required) + " SOL", c)
  {
    var have, need := SolText(balance as real), SolText(required);
    SolTextLacks(balance as real, c);
    SolTextLacks(required, c);
    LacksConcat(have, NeedInfix, c);
    LacksConcat(have + NeedInfix, need, c);
    LacksConcat(have + NeedInfix + need, " SOL", c);
  }

  /** The fixed prefix of the second balance message. */
  lemma FeesHavePrefixLacks()
    ensures Lacks(FeesHavePrefix, 'd') && Lacks(FeesHavePrefix, 'j') && Lacks(FeesHavePrefix, 'm')
  {
  }

  /** The second balance message: only digits and dots are spliced in. */
  lemma FeesBalanceMessageNamesNoPattern(balance: nat, required: real)
    requires required >= 0.0
    ensures var m := ThrownBy(InsufficientForFees(balance, required)).message;
      !Includes(m, "cancelled") && !Includes(m, "rejected") && !Includes(m, "timeout")
  {
    var rest := SolText(balance as real) + NeedInfix + SolText(required) + " SOL";
    var m := FeesHavePrefix + rest;
    assert ThrownBy(InsufficientForFees(balance, required)).message == m;
    FeesBalanceTailLacks(balance, required, 'c');
    FeesBalanceTailLacks(balance, required, 'j');
    FeesBalanceTailLacks(balance, required, 'm');
    FeesHavePrefixLacks();
    LacksConcat(FeesHavePrefix, rest, 'j');
    LacksConcat(FeesHavePrefix, rest, 'm');
    MissingCharExcludes(FeesHavePrefix, "cancelled", 'd');
    MissingCharExcludes(rest, "cancelled", 'c');
    SpaceJoinedExcludes(FeesHavePrefix, rest, "cancelled");
    MissingCharExcludes(m, "rejected", 'j');
    MissingCharExcludes(m, "timeout", 'm');
  }

  /** The wallet's cancellation text names a cancellation. */
  lemma CancelledMessageNamesCancel()
    ensures Includes(CancelledMessage, "cancelled")
  {
    IncludesMiddle("Transaction was ", "cancelled", ". Please try again.");
  }

  /** The wallet's rejection text names a rejection and no cancellation. */
  lemma RejectedMessageNamesReject()
    ensures !Includes(RejectedMessage, "cancelled") && Includes(RejectedMessage, "rejected")
  {
    MissingCharExcludes(RejectedMessage, "cancelled", 'l');
    IncludesMiddle("Transaction was ", "rejected", " by user.");
  }

  /** Composing `sendTip`'s errors with the modal's display mapping gives
      exactly the per-error table `UserSees`. */
  lemma {:induction false} WhatTheUserSees(e: TipError)
    requires e.InsufficientForFees? ==> e.required >= 0.0
    ensures DisplayedError(ThrownBy(e)) == UserSees(e)
  {
    match e
    case NotConnected => NotConnectedNamesNoPattern();
    case InvalidAmount => InvalidAmountNamesNoPattern();
    case BelowMinimum => BelowMinimumNamesNoPattern();
    case SelfTip => SelfTipNamesNoPattern();
    case BadRecipient(_) =>
    case BalanceUnavailable(_) =>
    case BuildFailed(_) =>
    case InsufficientBalance(balance) => BalanceMessageNamesNoPattern(balance);
    case InsufficientForFees(balance, required) => FeesBalanceMessageNamesNoPattern(balance, required);
    case SignerCancelled => CancelledMessageNamesCancel();
    case SignerRejected => RejectedMessageNamesReject();
    case SignerTimedOut =>
      TimedOutMessageNamesNoTimeout();
      TimedOutMessageNamesNoReject();
      TimedOutMessageNamesNoCancel();
    case SignerInsufficientFunds =>
      FeesMessageNamesNoRejection();
      FeesMessageNamesNoTimeout();
    case SignerFailed(m) => FailedPrefixTransparent(m);
    case SignerUnknown =>
      FailedPrefixTransparent("Unknown error");
      NamesNoPattern("Unknown error", 'c', 'j', 'm');
  }

  /** The modal's rewording of a cancelled or timed-out signing repeats the
      text `sendTip` rejected with, word for word; only a rejection by the
      user reads differently. */
  lemma RewordingOfWalletTexts()
    ensures UserSees(SignerCancelled) == CancelledMessage
    ensures UserSees(SignerTimedOut) == TimedOutMessage
    ensures UserSees(SignerRejected) != RejectedMessage
  {
    assert |RejectedDisplay| != |RejectedMessage|;
  }

  // ---------------------------------------------------------------------
  // The modal's state and handlers

  /** What the confirmation screen shows about a sent tip. */
  datatype TransactionDetails = TransactionDetails(signature: string, amount: real, recipient: Address)

  /** The amounts the quick-tip buttons put into the amount field, as
      `Number.prototype.toString` writes them. */
  const QuickAmounts: seq<string> := ["0.001", "0.01", "0.1", "0.5"]

  class TippingModal {
    const posterPublicKey: Address
    var tipAmount: string
    var isProcessing: bool
    var error: Option<string>
    var showConfirmation: bool
    var transactionDetails: Option<TransactionDetails>

    /** The confirmation flag and the details it shows are set and cleared
        together. */
    ghost predicate Valid()
      reads this
    {
      showConfirmation <==> transactionDetails.Some?
    }

    constructor(posterPublicKey: Address)
      ensures this.posterPublicKey == posterPublicKey
      ensures tipAmount == "" && !isProcessing && error == None
      ensures !showConfirmation && transactionDetails == None
      ensures Valid()
    {
      this.posterPublicKey := posterPublicKey;
      tipAmount := "";
      isProcessing := false;
      error := None;
      showConfirmation := false;
      transactionDetails := None;
    }

    /** Typing into the amount field. */
    method SetTipAmount(text: string)
      requires Valid()
      modifies this
      ensures Valid()
      ensures tipAmount == text
      ensures isProcessing == old(isProcessing) && error == old(error)
      ensures showConfirmation == old(showConfirmation) && transactionDetails == old(transactionDetails)
    {
      tipAmount := text;
    }

    /** Pressing one of the quick-tip buttons. */
    method PickQuickAmount(i: nat)
      requires i < |QuickAmounts|
      requires Valid()
      modifies this
      ensures Valid()
      ensures tipAmount == QuickAmounts[i]
      ensures isProcessing == old(isProcessing) && error == old(error)
      ensures showConfirmation == old(showConfirmation) && transactionDetails == old(transactionDetails)
    {
      tipAmount := QuickAmounts[i];
    }

    /** The part of `handleTip` before it awaits `sendTip`: without a wallet
        it only reports the fact; otherwise it starts processing and clears
        the previous error. */
    method BeginTip(connected: bool) returns (started: bool)
      requires Valid()
      modifies this
      ensures Valid()
      ensures started == connected
      ensures !connected ==> error == Some(NotConnectedMessage) && isProcessing == old(isProcessing)
      ensures connected ==> error == None && isProcessing
      ensures tipAmount == old(tipAmount)
      ensures showConfirmation == old(showConfirmation) && transactionDetails == old(transactionDetails)
    {
      if !connected {
        error := Some(NotConnectedMessage);
        return false;
      }
      isProcessing := true;
      error := None;
      return true;
    }

    /** The part of `handleTip` after `sendTip` settles: a receipt opens the
        confirmation screen, a failure shows the text `UserSees` gives for
        it, and processing ends either way. */
    method FinishTip(outcome: Result<TipReceipt, TipError>)
      requires outcome.Err? && outcome.error.InsufficientForFees? ==> outcome.error.required >= 0.0
      requires Valid()
      modifies this
      ensures Valid()
      ensures !isProcessing && tipAmount == old(tipAmount)
      ensures outcome.Ok? ==>
                && transactionDetails == Some(TransactionDetails(outcome.value.signature, outcome.value.amount, outcome.value.to))
                && showConfirmation && error == old(error)
      ensures outcome.Err? ==>
                && error == Some(UserSees(outcome.error))
                && showConfirmation == old(showConfirmation) && transactionDetails == old(transactionDetails)
    {
      match outcome {
        case Ok(receipt) =>
          transactionDetails := Some(TransactionDetails(receipt.signature, receipt.amount, receipt.to));
          showConfirmation := true;
        case Err(e) =>
          WhatTheUserSees(e);
          error := Some(DisplayedError(ThrownBy(e)));
      }
      isProcessing := false;
    }

    /** `handleTip`: a tip of the typed amount to the poster, with the
        wallet's selected account. `env` is what the world answers to the
        `sendTip` call, including `parseFloat` of the typed amount; the
        recipient it decodes is the poster's key. */
    method HandleTip(account: Option<Address>, env: Environment)
      requires env.recipient.Returned? ==> env.recipient.value == posterPublicKey
      requires Valid()
      modifies this
      ensures Valid()
      ensures tipAmount == old(tipAmount)
      ensures !IsConnected(account) ==>
                && error == Some(NotConnectedMessage) && isProcessing == old(isProcessing)
                && showConfirmation == old(showConfirmation) && transactionDetails == old(transactionDetails)
      ensures IsConnected(account) ==> !isProcessing
      ensures IsConnected(account) ==>
                match SendTip(account, env).outcome
                case Ok(r) =>
                  && transactionDetails == Some(TransactionDetails(r.signature, r.amount, r.to))
                  && showConfirmation && error == None
                case Err(e) =>
                  && error == Some(UserSees(e))
                  && showConfirmation == old(showConfirmation) && transactionDetails == old(transactionDetails)
    {
      var started := BeginTip(IsConnected(account));
      if started {
        var attempt := SendTip(account, env);
        FeeErrorTotalNonNegative(account, env);
        FinishTip(attempt.outcome);
      }
    }

    /** `handleDismiss`: ignored while a tip is processing; otherwise the
        modal is reset and asks to be closed. */
    method HandleDismiss() returns (closeRequested: bool)
      requires Valid()
      modifies this
      ensures closeRequested == !old(isProcessing)
      ensures isProcessing == old(isProcessing)
      ensures closeRequested ==>
                tipAmount == "" && error == None && !showConfirmation && transactionDetails == None
      ensures !closeRequested ==>
                && tipAmount == old(tipAmount) && error == old(error)
                && showConfirmation == old(showConfirmation) && transactionDetails == old(transactionDetails)
      ensures Valid()
    {
      if isProcessing {
        return false;
      }
      tipAmount := "";
      error := None;
      showConfirmation := false;
      transactionDetails := None;
      return true;
    }

    /** `handleConfirmationClose`: leaves the confirmation screen and asks to
        be closed, whatever the state. */
    method HandleConfirmationClose() returns (closeRequested: bool)
      modifies this
      ensures closeRequested
      ensures !showConfirmation && transactionDetails == None && Valid()
      ensures tipAmount == old(tipAmount) && isProcessing == old(isProcessing) && error == old(error)
    {
      showConfirmation := false;
      transactionDetails := None;
      return true;
    }

    /** The Send button's `disabled` prop. */
    function SendDisabled(connected: bool): (disabled: bool)
      reads this
      ensures !disabled <==>
                !isProcessing && connected && exists k :: 0 <= k < |tipAmount| && !IsWhitespace(tipAmount[k])
    {
      TrimEmptyIffBlank(tipAmount);
      isProcessing || Trim(tipAmount) == [] || !connected
    }

    /** The Send button's label. */
    function SendLabel(connected: bool): (text: string)
      reads this
      ensures isProcessing ==> text == ProcessingLabelText
      ensures !isProcessing && !connected ==> text == ConnectLabelText
      ensures !isProcessing && connected ==> text == SendLabelText
    {
      if isProcessing then ProcessingLabelText
      else if !connected then ConnectLabelText
      else SendLabelText
    }

    /** An enabled button reads "Send Tip", and the "Connect Wallet" button
        is always disabled: pressing the button never reaches `handleTip`
        without a wallet. */
    lemma EnabledButtonSendsTip(connected: bool)
      ensures !SendDisabled(connected) ==> SendLabel(connected) == SendLabelText
      ensures SendLabel(connected) == ConnectLabelText ==> SendDisabled(connected)
    {
      assert |ConnectLabelText| != |ProcessingLabelText| && |ConnectLabelText| != |SendLabelText|;
    }

    /** Whether the confirmation screen is rendered instead of the form. */
    function ShowsConfirmation(): (shown: bool)
      reads this
      ensures shown ==> transactionDetails.Some?
      ensures Valid() ==> (shown <==> showConfirmation)
    {
      showConfirmation && transactionDetails.Some?
    }
  }
}
