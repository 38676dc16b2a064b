/**
 * One run of the mint executor: read the configuration, choose a chain,
 * connect, read the contract address and amount, fetch a mint quote, check
 * the balance, size the gas, send the mint transaction and classify its
 * receipt. Every answer from outside (the prompts, the marketplace, the RPC
 * node) is an input; the run returns how it ended and the trace of the
 * external calls it made, in order.
 */
module MintRun {
  import opened Wrappers
  import opened JsText
  import MagicEden

  /** Chain ids the script knows, with the label it prints for each. */
  const NetworkNames: map<int, string> := map[10143 := "monad-testnet", 42161 := "arbitrum", 1 := "ethereum", 8453 := "base"]

  /** The chain menu: each answer to the chain prompt, the chain it selects and the variable holding that chain's RPC URL. */
  const ChainMenu: map<string, (string, string)> := map[
    "1" := ("monad-testnet", "RPC_URL_MONAD"),
    "2" := ("arbitrum", "RPC_URL_ARBITRUM"),
    "3" := ("ethereum", "RPC_URL_ETH_MAINNET"),
    "4" := ("base", "RPC_URL_BASE")]

  const DefaultChain := "monad-testnet"
  const FallbackGasLimit: nat := 500000
  const Confirmations: nat := 1
  const ConfirmationTimeoutMs: nat := 300000

  /** `process.env[name]` where the script tests it for truthiness: unset and empty both count as missing. */
  function EnvValue(env: map<string, string>, name: string): (r: Option<string>)
    ensures r.Some? <==> name in env && env[name] != ""
    ensures r.Some? ==> r.value == env[name]
  {
    if name in env && env[name] != "" then Some(env[name]) else None
  }

  /** `getCurrencySymbol`: MON on Monad's testnet, ETH on every other chain. */
  function CurrencySymbol(chain: string): (r: string)
    ensures r == "MON" <==> chain == DefaultChain
    ensures r == "MON" || r == "ETH"
  {
    if chain == DefaultChain then "MON" else "ETH"
  }

  /** `networkNames[chainId] || network.name || selectedChain`. */
  function NetworkLabel(chainId: int, reportedName: string, selectedChain: string): (r: string)
    ensures chainId in NetworkNames ==> r == NetworkNames[chainId]
    ensures chainId !in NetworkNames && reportedName != "" ==> r == reportedName
    ensures chainId !in NetworkNames && reportedName == "" ==> r == selectedChain
    ensures r == "" ==> chainId !in NetworkNames && reportedName == "" && selectedChain == ""
  {
    if chainId in NetworkNames then NetworkNames[chainId]
    else if reportedName != "" then reportedName
    else selectedChain
  }

  /** `parseInt(input) || 1`: NaN and zero both become 1; any other parsed value, negative ones included, is kept. */
  function MintAmount(input: string): (r: int)
    ensures r != 0
    ensures ParseInt(input).None? ==> r == 1
    ensures ParseInt(input).Some? ==> r == if ParseInt(input).value == 0 then 1 else ParseInt(input).value
  {
    match ParseInt(input)
    case None => 1
    case Some(n) => if n == 0 then 1 else n
  }

  /** The contract check: the raw answer must be non-empty and start with `0x`. */
  predicate IsContractAddress(contract: string) {
    contract != "" && "0x" <= contract
  }

  // ---------------------------------------------------------------------------
  // Inputs

  datatype Answers = Answers(chainChoice: string, contract: string, amount: string)

  datatype Network = Network(chainId: int, name: string)

  /** One execution step of a quote: `steps[i].params`. */
  datatype Step = Step(to: string, value: int, data: string)

  /** A quote body; `steps` is `None` when the field is absent. */
  datatype Quote = Quote(steps: Option<seq<Step>>)

  datatype Receipt = Receipt(hash: string, status: int, blockNumber: nat, gasUsed: nat, gasPrice: nat)

  /**
   * What the outside world answers, call by call. `None` is a call that
   * throws (or, for `gasPrice`, fee data without a gas price);
   * `sendErrorCode` is the `code` of the error a rejected send throws
   * (`""` when it has none).
   */
  datatype Replies = Replies(
    walletAddress: string,
    balance: nat,
    network: Network,
    quote: Option<Quote>,
    gasEstimate: Option<nat>,
    gasPrice: Option<nat>,
    txHash: Option<string>,
    sendErrorCode: string,
    receipt: Option<Receipt>)

  // ---------------------------------------------------------------------------
  // Outputs

  datatype TxRequest = TxRequest(to: string, value: int, data: string)

  datatype Tx = Tx(to: string, value: int, data: string, gasLimit: nat, gasPrice: nat)

  /** An external call, with the arguments that matter. */
  datatype Call =
    | AskChain
    | Connect(rpcUrl: string)
    | GetBalance(address: string)
    | GetNetwork
    | AskContract
    | AskAmount
    | PostQuote(request: MagicEden.Request)
    | EstimateGas(call: TxRequest, from: string)
    | GetFeeData
    | SendTransaction(tx: Tx)
    | WaitForTransaction(hash: string, confirmations: nat, timeoutMs: nat)

  datatype Config = Config(contract: string, wallet: string, chain: string, amount: int, currency: string)

  datatype Plan = Plan(config: Config, networkName: string, tx: Tx, estimatedGasCost: int, totalCost: int)

  datatype RunError =
    | MissingPrivateKey
    | MissingRpcUrl(chain: string)
    | QuoteRequestFailed
    | NoMintSteps
    | InsufficientBalance(need: int, have: nat)
    | NoGasPrice
    | SendFailed(code: string)
    | ConfirmationFailed

  datatype MintStatus = Succeeded(actualGasCost: int) | Reverted

  datatype Outcome =
    | Aborted(error: RunError)
    | InvalidContract
    | Mined(plan: Plan, receipt: Receipt, status: MintStatus)

  /** A quote the script cannot execute: `!quote.steps || quote.steps.length === 0`. */
  predicate NoSteps(q: Quote) {
    q.steps.None? || |q.steps.value| == 0
  }

  function FirstStep(q: Quote): Step
    requires !NoSteps(q)
  {
    q.steps.value[0]
  }

  // ---------------------------------------------------------------------------
  // The run, stage by stage: the checks it passes, in order, and the calls it makes.

  predicate HasKey(env: map<string, string>) {
    EnvValue(env, "PRIVATE_KEY").Some?
  }

  /** The chain the menu answer selects; any answer off the menu selects Monad's testnet. */
  function SelectedChain(choice: string): string {
    if choice in ChainMenu then ChainMenu[choice].0 else DefaultChain
  }

  /** The chain has a configured RPC URL; never so for an answer off the menu, which leaves the URL unset. */
  predicate HasRpcUrl(env: map<string, string>, choice: string) {
    choice in ChainMenu && EnvValue(env, ChainMenu[choice].1).Some?
  }

  function RpcUrl(env: map<string, string>, choice: string): string
    requires HasRpcUrl(env, choice)
  {
    env[ChainMenu[choice].1]
  }

  /** The calls up to and including the contract prompt. */
  function SetupCalls(env: map<string, string>, answers: Answers, replies: Replies): seq<Call>
    requires HasRpcUrl(env, answers.chainChoice)
  {
    [AskChain, Connect(RpcUrl(env, answers.chainChoice)), GetBalance(replies.walletAddress), GetNetwork, AskContract]
  }

  /** The configuration the script prints and quotes with. */
  function RunConfig(answers: Answers, replies: Replies): Config {
    var chain := SelectedChain(answers.chainChoice);
    Config(Trim(answers.contract), replies.walletAddress, chain, MintAmount(answers.amount), CurrencySymbol(chain))
  }

  /** The quote request: trimmed contract, wallet, selected chain, parsed amount, token 0. */
  function QuoteRequest(config: Config): MagicEden.Request {
    MagicEden.QuoteMintData(config.contract, config.wallet, config.chain, config.amount, 0)
  }

  function QuoteCalls(env: map<string, string>, answers: Answers, replies: Replies): seq<Call>
    requires HasRpcUrl(env, answers.chainChoice)
  {
    SetupCalls(env, answers, replies) + [AskAmount, PostQuote(QuoteRequest(RunConfig(answers, replies)))]
  }

  /** The transaction sent: the step's target, value and data, the estimate or else 500000 gas, the fee data's gas price. */
  function MintTx(step: Step, replies: Replies): Tx
    requires replies.gasPrice.Some?
  {
    Tx(step.to, step.value, step.data, replies.gasEstimate.GetOr(FallbackGasLimit), replies.gasPrice.value)
  }

  /** Status 1 is success, with the gas actually paid; any other status is a failed (reverted) transaction. */
  function Classify(receipt: Receipt): MintStatus {
    if receipt.status == 1 then Succeeded(receipt.gasUsed * receipt.gasPrice) else Reverted
  }

  /** The plan the script prints before sending: the estimated gas cost is gas limit times gas price, the total adds the value. */
  function MintPlan(config: Config, networkName: string, tx: Tx): Plan {
    var estimatedGasCost := tx.gasLimit * tx.gasPrice;
    Plan(config, networkName, tx, estimatedGasCost, tx.value + estimatedGasCost)
  }

  /** From gas estimation on: the outcome and the calls made once the balance covers the step's value. */
  function SendSpec(config: Config, networkName: string, step: Step, replies: Replies): (Outcome, seq<Call>) {
    var gasCalls := [EstimateGas(TxRequest(step.to, step.value, step.data), replies.walletAddress), GetFeeData];
    if replies.gasPrice.None? then (Aborted(NoGasPrice), gasCalls)
    else
      var tx := MintTx(step, replies);
      var sendCalls := gasCalls + [SendTransaction(tx)];
      if replies.txHash.None? then (Aborted(SendFailed(replies.sendErrorCode)), sendCalls)
      else
        var waitCalls := sendCalls + [WaitForTransaction(replies.txHash.value, Confirmations, ConfirmationTimeoutMs)];
        if replies.receipt.None? then (Aborted(ConfirmationFailed), waitCalls)
        else (Mined(MintPlan(config, networkName, tx), replies.receipt.value, Classify(replies.receipt.value)), waitCalls)
  }

  /** From the quote reply on: the outcome and the calls made after the quote request. */
  function MintSpec(config: Config, networkName: string, replies: Replies): (Outcome, seq<Call>) {
    if replies.quote.None? then (Aborted(QuoteRequestFailed), [])
    else if NoSteps(replies.quote.value) then (Aborted(NoMintSteps), [])
    else
      var step := FirstStep(replies.quote.value);
      if replies.balance < step.value then (Aborted(InsufficientBalance(step.value, replies.balance)), [])
      else SendSpec(config, networkName, step, replies)
  }

  /**
   * How a run ends and the calls it makes: it stops at the first check that
   * fails, in the order the script makes them.
   */
  function RunSpec(env: map<string, string>, answers: Answers, replies: Replies): (Outcome, seq<Call>) {
    if !HasKey(env) then (Aborted(MissingPrivateKey), [])
    else if !HasRpcUrl(env, answers.chainChoice) then (Aborted(MissingRpcUrl(SelectedChain(answers.chainChoice))), [AskChain])
    else if !IsContractAddress(answers.contract) then (InvalidContract, SetupCalls(env, answers, replies))
    else
      var networkName := NetworkLabel(replies.network.chainId, replies.network.name, SelectedChain(answers.chainChoice));
      var (outcome, calls) := MintSpec(RunConfig(answers, replies), networkName, replies);
      (outcome, QuoteCalls(env, answers, replies) + calls)
  }

  /**
   * The chain menu: the answer picks the chain and its RPC URL variable; an
   * answer off the menu leaves the chain at Monad's testnet and the URL unset.
   */
  method SelectChain(env: map<string, string>, chainChoice: string) returns (selectedChain: string, rpcUrl: Option<string>)
    ensures selectedChain == SelectedChain(chainChoice)
    ensures rpcUrl.Some? <==> HasRpcUrl(env, chainChoice)
    ensures rpcUrl.Some? ==> rpcUrl.value == RpcUrl(env, chainChoice)
  {
    rpcUrl := None;
    if chainChoice == "1" {
      selectedChain := "monad-testnet";
      rpcUrl := EnvValue(env, "RPC_URL_MONAD");
      assert ChainMenu[chainChoice] == (selectedChain, "RPC_URL_MONAD");
    } else if chainChoice == "2" {
      selectedChain := "arbitrum";
      rpcUrl := EnvValue(env, "RPC_URL_ARBITRUM");
      assert ChainMenu[chainChoice] == (selectedChain, "RPC_URL_ARBITRUM");
    } else if chainChoice == "3" {
      selectedChain := "ethereum";
      rpcUrl := EnvValue(env, "RPC_URL_ETH_MAINNET");
      assert ChainMenu[chainChoice] == (selectedChain, "RPC_URL_ETH_MAINNET");
    } else if chainChoice == "4" {
      selectedChain := "base";
      rpcUrl := EnvValue(env, "RPC_URL_BASE");
      assert ChainMenu[chainChoice] == (selectedChain, "RPC_URL_BASE");
    } else {
      selectedChain := DefaultChain;
      assert chainChoice !in ChainMenu;
    }
  }

  /**
   * The `try` block of the script's top-level async function. An error it
   * throws ends it as `Aborted` (the catch block is `Catch`); the
   * bad-address exit is a plain `return`, and a mined transaction is
   * `Mined` whatever its status.
   */
  method Run(env: map<string, string>, answers: Answers, replies: Replies) returns (outcome: Outcome, trace: seq<Call>)
    ensures (outcome, trace) == RunSpec(env, answers, replies)
  {
    trace := [];
    if EnvValue(env, "PRIVATE_KEY").None? {
      return Aborted(MissingPrivateKey), trace;
    }

    trace := trace + [AskChain];
    var chainChoice := answers.chainChoice;
    var selectedChain, rpcUrl := SelectChain(env, chainChoice);
    if rpcUrl.None? {
      assert !HasRpcUrl(env, chainChoice) && trace == [AskChain];
      return Aborted(MissingRpcUrl(selectedChain)), trace;
    }

    trace := trace + [Connect(rpcUrl.value)];
    var wallet := replies.walletAddress;
    trace := trace + [GetBalance(wallet)];
    trace := trace + [GetNetwork];
    var networkName := NetworkLabel(replies.network.chainId, replies.network.name, selectedChain);

    trace := trace + [AskContract];
    var contract := answers.contract;
    assert trace == SetupCalls(env, answers, replies);
    if !IsContractAddress(contract) {
      return InvalidContract, trace;
    }
    trace := trace + [AskAmount];
    var amount := MintAmount(answers.amount);
    var config := Config(Trim(contract), wallet, selectedChain, amount, CurrencySymbol(selectedChain));

    trace := trace + [PostQuote(MagicEden.QuoteMintData(config.contract, config.wallet, config.chain, config.amount, 0))];
    assert config == RunConfig(answers, replies);
    assert trace == QuoteCalls(env, answers, replies);
    var calls;
    outcome, calls := Mint(config, networkName, replies);
    trace := trace + calls;
  }

  /** The quote checks: a quote with a first step whose value the balance covers, then gas, send and confirm. */
  method Mint(config: Config, networkName: string, replies: Replies) returns (outcome: Outcome, calls: seq<Call>)
    ensures (outcome, calls) == MintSpec(config, networkName, replies)
  {
    if replies.quote.None? {
      return Aborted(QuoteRequestFailed), [];
    }
    var quote := replies.quote.value;
    if NoSteps(quote) {
      return Aborted(NoMintSteps), [];
    }
    var mintStep := quote.steps.value[0];
    var weiValue := mintStep.value;
    var balance := replies.balance;
    if balance < weiValue {
      return Aborted(InsufficientBalance(weiValue, balance)), [];
    }
    outcome, calls := Send(config, networkName, mintStep, replies);
  }

  /** Estimate gas (500000 when the estimate fails), read the gas price, send the mint transaction and wait for its receipt. */
  method Send(config: Config, networkName: string, mintStep: Step, replies: Replies) returns (outcome: Outcome, calls: seq<Call>)
    ensures (outcome, calls) == SendSpec(config, networkName, mintStep, replies)
  {
    var weiValue := mintStep.value;
    var txRequest := TxRequest(mintStep.to, weiValue, mintStep.data);
    calls := [EstimateGas(txRequest, replies.walletAddress)];
    var gasLimit: nat;
    match replies.gasEstimate {
      case Some(estimate) => gasLimit := estimate;
      case None => gasLimit := FallbackGasLimit;
    }
    calls := calls + [GetFeeData];
    assert calls == [EstimateGas(txRequest, replies.walletAddress), GetFeeData];
    if replies.gasPrice.None? {
      return Aborted(NoGasPrice), calls;
    }
    var gasPrice := replies.gasPrice.value;
    var estimatedGasCost: int := gasLimit * gasPrice;
    var totalCost := weiValue + estimatedGasCost;

    var finalTx := Tx(mintStep.to, weiValue, mintStep.data, gasLimit, gasPrice);
    calls := calls + [SendTransaction(finalTx)];
    if replies.txHash.None? {
      return Aborted(SendFailed(replies.sendErrorCode)), calls;
    }
    calls := calls + [WaitForTransaction(replies.txHash.value, Confirmations, ConfirmationTimeoutMs)];
    if replies.receipt.None? {
      return Aborted(ConfirmationFailed), calls;
    }
    var receipt := replies.receipt.value;
    var status: MintStatus;
    if receipt.status == 1 {
      var actualGasCost: int := receipt.gasUsed * receipt.gasPrice;
      status := Succeeded(actualGasCost);
    } else {
      status := Reverted;
    }
    outcome := Mined(Plan(config, networkName, finalTx, estimatedGasCost, totalCost), receipt, status);
  }

  // ---------------------------------------------------------------------------
  // The catch block

  const InsufficientFundsCode := "INSUFFICIENT_FUNDS"
  const NonceExpiredCode := "NONCE_EXPIRED"

  /** The advice the catch block prints after the error message. */
  datatype Hint = AddFunds(currency: string) | RetryNonce

  /** The `code` of a thrown error: only a send the node rejects carries one; the script's own errors have none. */
  function ErrorCode(e: RunError): string {
    if e.SendFailed? then e.code else ""
  }

  /**
   * The catch block as written. `config` is a `const` of the `try` block, so
   * it is out of scope there, and `config?.currency` in the
   * INSUFFICIENT_FUNDS branch throws a ReferenceError: `None` is that
   * throw, which leaves the script's promise rejected instead of handled.
   */
  function CatchAsWritten(e: RunError): (r: Option<seq<Hint>>)
    ensures r.None? <==> ErrorCode(e) == InsufficientFundsCode
    ensures r.Some? ==> (RetryNonce in r.value <==> ErrorCode(e) == NonceExpiredCode)
    ensures r.Some? ==> |r.value| <= 1 && forall h :: h in r.value ==> h == RetryNonce
  {
    if ErrorCode(e) == InsufficientFundsCode then None
    else if ErrorCode(e) == NonceExpiredCode then Some([RetryNonce])
    else Some([])
  }

  /**
   * The catch block as intended: the add-funds hint names the run's
   * currency. Only a rejected send carries a code, and the configuration
   * exists by then, so the `'tokens'` fallback is never needed.
   */
  function Catch(e: RunError, currency: string): (r: seq<Hint>)
    ensures AddFunds(currency) in r <==> ErrorCode(e) == InsufficientFundsCode
    ensures RetryNonce in r <==> ErrorCode(e) == NonceExpiredCode
    ensures |r| <= 1
    ensures forall h :: h in r ==> h == AddFunds(currency) || h == RetryNonce
  {
    if ErrorCode(e) == InsufficientFundsCode then [AddFunds(currency)]
    else if ErrorCode(e) == NonceExpiredCode then [RetryNonce]
    else []
  }

  /** The hints a run prints: those of the catch block for an aborted run, none otherwise. */
  function RunHints(env: map<string, string>, answers: Answers, replies: Replies): seq<Hint> {
    var outcome := RunSpec(env, answers, replies).0;
    if outcome.Aborted? then Catch(outcome.error, RunConfig(answers, replies).currency) else []
  }

  /** The whole script: the `try` block, then, for an error, the catch block with the run's currency. */
  method Execute(env: map<string, string>, answers: Answers, replies: Replies) returns (outcome: Outcome, trace: seq<Call>, hints: seq<Hint>)
    ensures (outcome, trace) == RunSpec(env, answers, replies)
    ensures hints == RunHints(env, answers, replies)
  {
    outcome, trace := Run(env, answers, replies);
    hints := [];
    if outcome.Aborted? {
      hints := Catch(outcome.error, CurrencySymbol(SelectedChain(answers.chainChoice)));
    }
  }
}
