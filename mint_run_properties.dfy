/**
 * What a run of the mint executor guarantees, stated over `RunSpec` (which
 * `MintRun.Run` computes): the order of the checks, what is asked of the
 * marketplace, when a transaction is sent and what it carries, and how the
 * result is classified.
 */
module MintRunProperties {
  import opened Wrappers
  import opened JsText
  import MagicEden
  import opened MintRun

  /** Nothing is asked or connected without a private key, and a run with one always asks for the chain. */
  lemma KeyCheckedFirst(env: map<string, string>, answers: Answers, replies: Replies)
    ensures RunSpec(env, answers, replies).1 == [] <==> !HasKey(env)
    ensures !HasKey(env) ==> RunSpec(env, answers, replies).0 == Aborted(MissingPrivateKey)
    ensures HasKey(env) ==> RunSpec(env, answers, replies).1[0] == AskChain
  {
  }

  /** A menu answer connects to the URL in that chain's variable, or aborts naming that chain when the variable is unset or empty. */
  lemma MenuChoiceConnects(env: map<string, string>, answers: Answers, replies: Replies)
    requires HasKey(env) && answers.chainChoice in ChainMenu
    ensures var (chain, variable) := ChainMenu[answers.chainChoice];
      var (outcome, trace) := RunSpec(env, answers, replies);
      && (variable in env && env[variable] != "" ==> |trace| >= 2 && trace[1] == Connect(env[variable]))
      && (variable !in env || env[variable] == "" ==> outcome == Aborted(MissingRpcUrl(chain)) && trace == [AskChain])
  {
  }

  /**
   * An answer off the menu announces Monad's testnet as the default but
   * leaves the RPC URL unset, so the run aborts at once, however the
   * environment is configured.
   */
  lemma OffMenuAborts(env: map<string, string>, answers: Answers, replies: Replies)
    requires HasKey(env) && answers.chainChoice !in ChainMenu
    ensures RunSpec(env, answers, replies) == (Aborted(MissingRpcUrl("monad-testnet")), [AskChain])
  {
  }

  /** The run's currency is MON exactly for menu answer 1 (and for an answer off the menu). */
  lemma CurrencyOfChoice(answers: Answers, replies: Replies)
    ensures RunConfig(answers, replies).currency == "MON" <==> answers.chainChoice !in {"2", "3", "4"}
    ensures RunConfig(answers, replies).currency == "ETH" <==> answers.chainChoice in {"2", "3", "4"}
  {
    assert answers.chainChoice in ChainMenu <==> answers.chainChoice in {"1", "2", "3", "4"};
  }

  /** The stages after the quote request never end in a setup error or the bad-address exit. */
  lemma LateOutcomes(config: Config, networkName: string, replies: Replies)
    ensures var outcome := MintSpec(config, networkName, replies).0;
      && outcome != InvalidContract
      && !(outcome.Aborted? && (outcome.error.MissingPrivateKey? || outcome.error.MissingRpcUrl?))
  {
  }

  /** The address check ends the run quietly, after the network lookups and before any quote. */
  lemma BadAddressEndsRun(env: map<string, string>, answers: Answers, replies: Replies)
    ensures var (outcome, trace) := RunSpec(env, answers, replies);
      && (outcome == InvalidContract <==> HasKey(env) && HasRpcUrl(env, answers.chainChoice) && !IsContractAddress(answers.contract))
      && (outcome == InvalidContract ==>
            (|trace| == 5 && trace[2] == GetBalance(replies.walletAddress) && trace[3] == GetNetwork
             && forall c :: c in trace ==> !c.PostQuote?))
  {
    var networkName := NetworkLabel(replies.network.chainId, replies.network.name, SelectedChain(answers.chainChoice));
    LateOutcomes(RunConfig(answers, replies), networkName, replies);
  }

  /** The check looks at the answer before trimming: an address after a leading space is refused, although trimming would have fixed it. */
  lemma CheckPrecedesTrim()
    ensures !IsContractAddress(" 0xabc") && IsContractAddress(Trim(" 0xabc"))
    ensures IsContractAddress("0xabc ") && Trim("0xabc ") == "0xabc"
  {
    TrimStrips(" ", "0xabc", "");
    assert " " + "0xabc" + "" == " 0xabc";
    TrimStrips("", "0xabc", " ");
    assert "" + "0xabc" + " " == "0xabc ";
  }

  /**
   * Past the checks the marketplace is asked for a quote for the trimmed
   * contract (still starting with `0x`), the wallet, the selected chain,
   * the parsed amount and token 0, in the seventh call.
   */
  lemma QuoteAsked(env: map<string, string>, answers: Answers, replies: Replies)
    requires HasKey(env) && HasRpcUrl(env, answers.chainChoice) && IsContractAddress(answers.contract)
    ensures var trace := RunSpec(env, answers, replies).1;
      && |trace| >= 7 && trace[5] == AskAmount && trace[6].PostQuote?
      && trace[6].request.Post? && trace[6].request.url == MagicEden.ApiBaseUrl + MagicEden.MintTokenPath
      && MagicEden.QuoteArgs(trace[6].request.payload)
         == (Trim(answers.contract), replies.walletAddress, SelectedChain(answers.chainChoice), MintAmount(answers.amount), 0)
    ensures "0x" <= RunConfig(answers, replies).contract
  {
    TrimKeepsHexPrefix(answers.contract);
    var trace := RunSpec(env, answers, replies).1;
    assert trace[..7] == QuoteCalls(env, answers, replies);
  }

  /** The quote reply decides the next step: a failed request and a quote without steps abort, in that order. */
  lemma QuoteChecked(env: map<string, string>, answers: Answers, replies: Replies)
    requires HasKey(env) && HasRpcUrl(env, answers.chainChoice) && IsContractAddress(answers.contract)
    ensures var outcome := RunSpec(env, answers, replies).0;
      && (outcome == Aborted(QuoteRequestFailed) <==> replies.quote.None?)
      && (outcome == Aborted(NoMintSteps) <==> replies.quote.Some? && NoSteps(replies.quote.value))
  {
  }

  /**
   * The balance must cover the first step's value (gas is not counted):
   * otherwise the run aborts before estimating gas, and an exactly equal
   * balance passes.
   */
  lemma BalanceChecked(env: map<string, string>, answers: Answers, replies: Replies)
    requires HasKey(env) && HasRpcUrl(env, answers.chainChoice) && IsContractAddress(answers.contract)
    requires replies.quote.Some? && !NoSteps(replies.quote.value)
    ensures var value := FirstStep(replies.quote.value).value;
      var (outcome, trace) := RunSpec(env, answers, replies);
      && (outcome == Aborted(InsufficientBalance(value, replies.balance)) <==> replies.balance < value)
      && (replies.balance < value ==> |trace| == 7 && forall c :: c in trace ==> !c.EstimateGas? && !c.SendTransaction?)
      && (replies.balance >= value ==> |trace| >= 8 && trace[7] == EstimateGas(TxRequest(FirstStep(replies.quote.value).to, value, FirstStep(replies.quote.value).data), replies.walletAddress))
  {
  }

  /**
   * A transaction is sent only after every check has passed, and it is the
   * quote's first step with the estimated gas limit (500000 when estimation
   * failed) and the node's gas price.
   */
  lemma SendOnlyAfterChecks(env: map<string, string>, answers: Answers, replies: Replies, tx: Tx)
    requires SendTransaction(tx) in RunSpec(env, answers, replies).1
    ensures HasKey(env) && HasRpcUrl(env, answers.chainChoice) && IsContractAddress(answers.contract)
    ensures replies.quote.Some? && !NoSteps(replies.quote.value) && replies.gasPrice.Some?
    ensures var step := FirstStep(replies.quote.value);
      && tx.to == step.to && tx.value == step.value && tx.data == step.data
      && tx.value <= replies.balance && tx.gasPrice == replies.gasPrice.value
      && tx.gasLimit == (if replies.gasEstimate.None? then 500000 else replies.gasEstimate.value)
  {
    var trace := RunSpec(env, answers, replies).1;
    assert HasKey(env) && HasRpcUrl(env, answers.chainChoice) && IsContractAddress(answers.contract);
    var config := RunConfig(answers, replies);
    var networkName := NetworkLabel(replies.network.chainId, replies.network.name, SelectedChain(answers.chainChoice));
    assert trace == QuoteCalls(env, answers, replies) + MintSpec(config, networkName, replies).1;
    assert SendTransaction(tx) in MintSpec(config, networkName, replies).1;
    SentByMint(config, networkName, replies, tx);
  }

  /** The send in the stages after the quote request: only once the quote has a step the balance covers and the gas price is known. */
  lemma SentByMint(config: Config, networkName: string, replies: Replies, tx: Tx)
    requires SendTransaction(tx) in MintSpec(config, networkName, replies).1
    ensures replies.quote.Some? && !NoSteps(replies.quote.value) && replies.gasPrice.Some?
    ensures FirstStep(replies.quote.value).value <= replies.balance
    ensures tx == MintTx(FirstStep(replies.quote.value), replies)
  {
  }

  /** The send is always the tenth call, so a run sends at most one transaction. */
  lemma SendIsTenthCall(env: map<string, string>, answers: Answers, replies: Replies)
    ensures var trace := RunSpec(env, answers, replies).1;
      forall i :: 0 <= i < |trace| && trace[i].SendTransaction? ==> i == 9
  {
    var trace := RunSpec(env, answers, replies).1;
    if HasKey(env) && HasRpcUrl(env, answers.chainChoice) && IsContractAddress(answers.contract) {
      var config := RunConfig(answers, replies);
      var networkName := NetworkLabel(replies.network.chainId, replies.network.name, SelectedChain(answers.chainChoice));
      var calls := MintSpec(config, networkName, replies).1;
      var before := QuoteCalls(env, answers, replies);
      assert trace == before + calls;
      SendIsThirdLateCall(config, networkName, replies);
      forall i | 0 <= i < |trace| && trace[i].SendTransaction?
        ensures i == 9
      {
        if i >= 7 {
          assert calls[i - 7] == trace[i];
        }
      }
    }
  }

  lemma SendIsThirdLateCall(config: Config, networkName: string, replies: Replies)
    ensures var calls := MintSpec(config, networkName, replies).1;
      forall i :: 0 <= i < |calls| && calls[i].SendTransaction? ==> i == 2
  {
  }

  /**
   * A sent transaction that is not confirmed aborts the run; a receipt
   * makes it `Mined`, successful exactly when its status is 1, and a
   * reverted transaction is reported, not raised as an error.
   */
  lemma ReceiptClassified(env: map<string, string>, answers: Answers, replies: Replies)
    requires HasKey(env) && HasRpcUrl(env, answers.chainChoice) && IsContractAddress(answers.contract)
    requires replies.quote.Some? && !NoSteps(replies.quote.value) && FirstStep(replies.quote.value).value <= replies.balance
    requires replies.gasPrice.Some?
    ensures var outcome := RunSpec(env, answers, replies).0;
      && (outcome == Aborted(SendFailed(replies.sendErrorCode)) <==> replies.txHash.None?)
      && (outcome == Aborted(ConfirmationFailed) <==> replies.txHash.Some? && replies.receipt.None?)
      && (outcome.Mined? <==> replies.txHash.Some? && replies.receipt.Some?)
      && (outcome.Mined? ==> outcome.receipt == replies.receipt.value
                             && (outcome.status.Succeeded? <==> replies.receipt.value.status == 1))
  {
  }

  /**
   * A mined run reports the configuration it quoted with, the gas cost as
   * limit times price, the total as value plus gas, the gas actually paid on
   * success, and ends with the wait for one confirmation within 300 seconds.
   */
  lemma MinedReport(env: map<string, string>, answers: Answers, replies: Replies)
    requires RunSpec(env, answers, replies).0.Mined?
    ensures var (outcome, trace) := RunSpec(env, answers, replies);
      var plan := outcome.plan;
      && plan.config == RunConfig(answers, replies)
      && plan.networkName == NetworkLabel(replies.network.chainId, replies.network.name, SelectedChain(answers.chainChoice))
      && plan.estimatedGasCost == plan.tx.gasLimit * plan.tx.gasPrice
      && plan.totalCost == plan.tx.value + plan.estimatedGasCost
      && plan.tx.value <= plan.totalCost
      && SendTransaction(plan.tx) in trace
      && (outcome.status.Succeeded? ==> outcome.status.actualGasCost == outcome.receipt.gasUsed * outcome.receipt.gasPrice)
      && |trace| == 11 && trace[10] == WaitForTransaction(replies.txHash.value, 1, 300000)
  {
    var (outcome, trace) := RunSpec(env, answers, replies);
    assert HasKey(env) && HasRpcUrl(env, answers.chainChoice) && IsContractAddress(answers.contract);
    var config := RunConfig(answers, replies);
    var networkName := NetworkLabel(replies.network.chainId, replies.network.name, SelectedChain(answers.chainChoice));
    var calls := MintSpec(config, networkName, replies).1;
    assert trace == QuoteCalls(env, answers, replies) + calls;
    var step := FirstStep(replies.quote.value);
    var tx := MintTx(step, replies);
    assert calls == [EstimateGas(TxRequest(step.to, step.value, step.data), replies.walletAddress), GetFeeData,
                     SendTransaction(tx), WaitForTransaction(replies.txHash.value, Confirmations, ConfirmationTimeoutMs)];
    assert outcome.plan == MintPlan(config, networkName, tx);
    assert trace[9] == SendTransaction(tx);
  }

  /** `parseInt(input) || 1` on a numeral, after blanks, before text that cannot continue it. */
  lemma MintAmountOfNumeral(ws: string, n: int, tail: string)
    requires AllWhitespace(ws)
    requires tail == [] || (!IsDigitIn(tail[0], 10) && (n == 0 ==> tail[0] != 'x' && tail[0] != 'X'))
    ensures MintAmount(ws + IntToString(n) + tail) == if n == 0 then 1 else n
  {
    ParseIntOfNumeral(ws, n, tail);
  }

  /** An empty answer, or one without a leading number, mints one. */
  lemma MintAmountDefaultsToOne(ws: string, sign: string, rest: string)
    requires AllWhitespace(ws) && (sign == "" || sign == "+" || sign == "-")
    requires rest == [] || (!IsDigitIn(rest[0], 10) && !IsJsWhitespace(rest[0]) && rest[0] != '-' && rest[0] != '+')
    ensures MintAmount(ws + sign + rest) == 1
  {
    ParseIntNaN(ws, sign, rest);
  }

  /**
   * The catch block prints the add-funds hint, naming the run's currency,
   * exactly when the node rejected the send for insufficient funds, and the
   * nonce hint exactly when it rejected it for an expired nonce.
   */
  lemma HintsFollowSendError(env: map<string, string>, answers: Answers, replies: Replies)
    ensures var (outcome, hints) := (RunSpec(env, answers, replies).0, RunHints(env, answers, replies));
      && (AddFunds(RunConfig(answers, replies).currency) in hints <==> outcome == Aborted(SendFailed(InsufficientFundsCode)))
      && (RetryNonce in hints <==> outcome == Aborted(SendFailed(NonceExpiredCode)))
      && |hints| <= 1
      && forall h :: h in hints ==> h == AddFunds(RunConfig(answers, replies).currency) || h == RetryNonce
  {
  }

  /**
   * As written, the catch block itself throws on a run whose balance covers
   * the mint's value but not value plus gas: the check lets it through, the
   * node rejects the send for insufficient funds, and reading `config` in the
   * handler fails.
   */
  lemma HandlerThrowsOnUnderfundedSend()
    ensures var env := map["PRIVATE_KEY" := "key", "RPC_URL_BASE" := "https://rpc"];
      var answers := Answers("4", "0xabc", "1");
      var replies := Replies("0xwallet", 100, Network(8453, "base"), Some(Quote(Some([Step("0xc", 100, "0x")]))),
                             Some(21000), Some(1), None, InsufficientFundsCode, None);
      var outcome := RunSpec(env, answers, replies).0;
      && replies.balance < 100 + 21000 * 1
      && outcome == Aborted(SendFailed(InsufficientFundsCode))
      && CatchAsWritten(outcome.error).None?
      && Catch(outcome.error, "ETH") == [AddFunds("ETH")]
  {
    var env := map["PRIVATE_KEY" := "key", "RPC_URL_BASE" := "https://rpc"];
    assert EnvValue(env, "RPC_URL_BASE") == Some("https://rpc");
    assert HasRpcUrl(env, "4");
  }
}
