# Verification of the Solana universal gateway

A Dafny model of the `universal-gateway` program and of the payload codec its clients use, with proofs
about whole runs of the program. `dafny verify dfyconfig.toml` checks all of it.

## What is modelled

The program is a bridge. `send_universal_tx` takes SOL or tokens into a vault on four routes.
`finalize_universal_tx` pays out of the vault, through an account kept for each Push Chain user (a CEA):
to a recipient, to another program that the CEA signs for, or back into the vault as a new inbound
transfer. `revert_universal_tx` and `rescue_funds` pay out of the vault directly. The last three need a
signature of the TSS over a message that carries a sub-transaction id, and each id can be used once. Two
limiters meter what comes in: a USD cap per slot for gas, and a limit per epoch for each token.

Each instruction is stated twice and the two are proved equal.

* `Deposit`, `Finalize`, `Payout` and `Admin` say what a call does as a whole: when it is refused and with
  which error, and the net change to balances, accounts and log. A withdrawal is one payment from the vault
  to its recipient there, and a deposit has no checks but those that can still fail.
* `SendHandlers`, `FinalizeHandlers`, `PayoutHandlers` and `AdminHandlers` are the handlers step by step, on
  one mutable object (`Chains.Chain`) that holds balances, accounts and log, with the checks and transfers
  where the program has them. An instruction that fails puts everything back, as the runtime does.

`Runs` is the state machine: any sequence of these calls, successful or not, interleaved with any other
transactions. `Programs.ProcessAll` ties the handlers to it. The theorems about runs are in `VaultLedger`
(the event log is the ledger of the vault), `Authorisation` (nothing leaves without a signature, nothing
leaves twice), `Destinations` (nothing goes where no message sends it), `FeeVault`, `Cea`, `Conservation`
and `LimiterRuns`. `Commitment` and `Signatures` say what a signature fixes and decides, `Liveness` that a
signed payment cannot be blocked, `Markers` that an executed id stays executed, `Settings` who changes a
setting and what a pause stops, `Rotation` why chain ids must not extend one another.

`Admission`, `Refusals` and `DepositEvents` state the descriptions of the calls a third time, without their
functions: as conditions on the state and the arguments that are necessary and sufficient for each instruction,
as what each error code says, and as the events of a deposit field by field. What `Deposit`, `Finalize`,
`Payout` and `Admin` compute is proved to meet them.

Below these, `RateLimit` and `RateLimitHistory` treat the limiters, `Pricing` the conversion to USD and the USD
caps, `Messages`, `ChainIds` and `ShortMessages` and `SignedLayout` the signed bytes, `Encoding` and `ExecutePayload` the account
lists, and `UeaArguments` the arguments of a self-call.

A ledger is a map of lamports and a map of SPL token accounts. "What an address holds of a mint" is the
sum over all token accounts it owns. Every effect is stated as a sum of contributions, so that it holds when
caller, recipient, user or CEA are the same account.

## Assumptions

* `State.ValidEnv`: program-derived addresses of different kinds, and of different CEAs, differ, and no key
  signs for them.
* `State.Shielded`: code that is not the gateway's can debit, of the gateway's addresses, only the CEA that
  signs for it. Lamports are conserved by the runtime. Which balances the target of an execute call leaves
  is an input; so are the oracle's price, the clock and the outcome of other transactions.
* Hash and key recovery are functions about which nothing is assumed. That messages cannot be forged is a
  hypothesis of `VaultKeepsTheUnsigned` and `GainsAreSigned`: a message presented with a signature that recovers
  to the TSS address was signed. Attempts with any other signature are unrestricted.

## Where code and documents differ

The model follows the code in each case.

* A token limit of zero: the setter's comment (`instructions/admin.rs:230-235`) says it disables limiting;
  `utils/rate_limit.rs:85-88` then refuses the token. `NoLimitExactly` states both sides.
* The self-call discriminator: `docs/2-WITHDRAW-EXECUTE.md:70` says keccak256, `instructions/withdraw.rs:101`
  takes SHA-256.
* The executed marker: the documents create it after the signature check
  (`docs/2-WITHDRAW-EXECUTE.md:43`); Anchor creates it before the handler runs. Only the choice of error when
  several things are wrong depends on it.
* `docs/1-DEPOSIT.md:76` lets `token_program` be null on native routes; `instructions/deposit.rs:418`
  requires it.
* The documents speak of the vault's associated token account. The code accepts any token account that the
  vault owns (`instructions/deposit.rs:346-350`, `instructions/execute.rs:81-82`), which is why holdings are
  summed over all of them.
* A withdrawal of tokens checks the address of the recipient's associated account but not who owns it by
  now; `Effects.ReceiverOf` is therefore its owner.

## Model

| member | source | states |
|---|---|---|
| `VaultLedger.LedgerFloor` | contracts/svm-gateway/programs/universal-gateway/src/instructions/execute.rs:119-187 | Over any run at all (any mix of deposits, outbound calls, reverts, rescues, setters, other transactions), for SOL and for every mint over all vault-owned token accounts: the vault ends with at least what it began with plus the amounts of UniversalTx events less finalized amounts, finalized gas fees and reverted and rescued amounts |
| `VaultLedger.LedgerExact` | contracts/svm-gateway/programs/universal-gateway/src/instructions/execute.rs:349-418 | That bound is an equality if and only if no successful step paid the asset to the vault itself and no foreign code credited the vault: the event log is the exact ledger of the vault, deposits and CEA returns included |
| `VaultLedger.StepVault` | contracts/svm-gateway/programs/universal-gateway/src/instructions/revert.rs:73-159 | The same for one step of any kind, with the step's own condition for equality |
| `VaultLedger.SendExact` | contracts/svm-gateway/programs/universal-gateway/src/instructions/deposit.rs:16-66 | On every route the user loses exactly the native amount, the fee vault gains exactly the fee, the vault gains exactly the rest, the native amounts in the events add up to that rest, and nobody else's lamports change |
| `VaultLedger.SendNet` | contracts/svm-gateway/programs/universal-gateway/src/instructions/deposit.rs:133-321 | Whatever legs a deposit has, the amounts of its events add up per asset: native value less fee for SOL, the token leg for a mint, nothing else |
| `Authorisation.OutflowIsSigned` | contracts/svm-gateway/programs/universal-gateway/src/instructions/tss.rs:81-112 | Over any run, successful and failed rotations of key and chain id included, what the log says left the vault equals the sum, over the set of distinct message bytes the run accepted, of what each message carries (plus gas fee for ids 1 and 2), provided the chain ids in use are none a prefix of another and counts are below 2^32. A run under one chain id is the special case of a one-element set |
| `Authorisation.AcceptedCarriedSignature` | contracts/svm-gateway/programs/universal-gateway/src/instructions/tss.rs:102-110 | For every accepted message there is a step of the run that succeeded with it and itself carried the TSS's signature: the hash of the message bytes is the one presented, and the key recovered from it has, hashed, the Ethereum address in force at that step |
| `Authorisation.VaultKeepsTheUnsigned` | contracts/svm-gateway/programs/universal-gateway/src/instructions/execute.rs:119-187 | For any set of messages that contains those presented with a signature of the TSS, the vault keeps what it had and what came in less at most what that set releases, each message counted once. Relayers may present any other message with any other signature |
| `Authorisation.ExecutedOnce` | contracts/svm-gateway/programs/universal-gateway/src/instructions/execute.rs:59-68 | Over any run the executed set grows by exactly the ids in finalize, revert and rescue events; each id occurs at most once, none was executed before, and a failed attempt consumes nothing |
| `Authorisation.StepExecutes` | contracts/svm-gateway/programs/universal-gateway/src/instructions/revert.rs:42-50 | A successful step executes just the sub-transaction it names, which was not executed before, and reports it exactly once |
| `Authorisation.StepReleases` | contracts/svm-gateway/programs/universal-gateway/src/instructions/rescue.rs:78-164 | What a successful step lets out of the vault is what its message carries, and the hash, signature and recovery id the step carries are the TSS's over that message, for all four instructions; steps without a message let nothing out |
| `Signatures.SignatureDecides` | contracts/svm-gateway/programs/universal-gateway/src/instructions/tss.rs:81-112 | A call that some signature makes acceptable is accepted with exactly the signatures of the TSS over its message, and then ends in the same state and log whichever of them it carries |
| `Signatures.AnySignatureServes` | contracts/svm-gateway/programs/universal-gateway/src/instructions/tss.rs:102-110 | Two signatures of the TSS over one message get the same answer in every world, refusals included |
| `Signatures.SignatureDoesNotRefuse` | contracts/svm-gateway/programs/universal-gateway/src/instructions/tss.rs:102-110 | A call that carries a signature of the TSS never fails with a hash or signature error |
| `State.VerifySignature` | contracts/svm-gateway/programs/universal-gateway/src/instructions/tss.rs:102-110 | Passes if and only if the hash is that of the message and the recovered key has the TSS address; a refusal says which of the two is not so |
| `Destinations.GainsAreGranted` | contracts/svm-gateway/programs/universal-gateway/src/instructions/execute.rs:349-418 | Over any run, what an address gains, in SOL or in a token, is at most what the distinct accepted messages that name it grant it: as recipient of a withdrawal, revert or rescue, or as the CEA of an execution; in SOL also the gas fees of the calls it relayed. (The address is not the vault, in SOL not the fee vault nor an account a call creates; token recipients still own their associated accounts; foreign code gives it nothing) |
| `Destinations.GainsAreSigned` | contracts/svm-gateway/programs/universal-gateway/src/instructions/tss.rs:81-112 | The same against any set of messages that contains those presented with a signature of the TSS |
| `Destinations.StepGrants` | contracts/svm-gateway/programs/universal-gateway/src/instructions/revert.rs:124-156 | A successful step gives such an address at most what the step's own message grants it and the gas fee if it relays the call |
| `Commitment.EventsAreSigned` | contracts/svm-gateway/programs/universal-gateway/src/instructions/execute.rs:175-184 | The events of an accepted call are those its message stands for, for all six shapes and the self-call, up to the clock, the relayer and the unsigned note of a revert |
| `Commitment.EffectIsSigned` | contracts/svm-gateway/programs/universal-gateway/src/instructions/execute.rs:349-418 | What an accepted call does to any holding, of SOL or a token, is a function of its message: exact for every address but the relayer and, in SOL, an account the call creates. (For a call into another program: what is done before that program runs; a token recipient still owns its associated account) |
| `Commitment.SameBytesSameCall` | contracts/svm-gateway/programs/universal-gateway/src/instructions/tss.rs:81-112 | Whoever presents the same signed bytes, in whatever world and whenever they are accepted: the same events and the same change to every such holding |
| `Commitment.BytesFixTheCall` | contracts/svm-gateway/programs/universal-gateway/src/instructions/execute.rs:443-514 | Two withdrawals or executions signed with the same bytes are for the same sub-transaction, user, asset, amount and fee; withdrawals go to the same recipient, executions call the same program with the same data and the same accounts in the same order, of which the same are writable |
| `Commitment.BytesFixThePayout` | contracts/svm-gateway/programs/universal-gateway/src/instructions/revert.rs:106-120 | The same for reverts and rescues, which are never taken for each other |
| `Commitment.TheRestIsReported` | contracts/svm-gateway/programs/universal-gateway/src/instructions/revert.rs:147-156 | What no signature covers is reported as it is: the clock, the relayer that got the gas fee, and the note of a revert |
| `Liveness.PayoutCannotBeBlocked` | contracts/svm-gateway/programs/universal-gateway/src/instructions/revert.rs:73-159 | A revert or rescue that could be made can still be made after any run of other transactions in which no setter succeeds and nobody succeeds with its id, if the relayer keeps its lamports, the paying and receiving accounts are still there with the amount, and the fee vault covers the gas fee |
| `Liveness.WithdrawCannotBeBlocked` | contracts/svm-gateway/programs/universal-gateway/src/instructions/execute.rs:119-187 | The same for a withdrawal of SOL or of a token; no limiter stands in its way, and it does not matter whether somebody opens the CEA's token account in the meantime |
| `Admission.DepositExactly` | contracts/svm-gateway/programs/universal-gateway/src/instructions/deposit.rs:16-361 | A deposit is accepted if and only if the user signs and has the value, the gateway runs, the request asks for something its value covers, a non-zero gas leg can be priced and its exact value fits the USD caps and the slot cap, and funds fit their token limit and come between the right token accounts |
| `Admission.CallExactly` | contracts/svm-gateway/programs/universal-gateway/src/instructions/execute.rs:17-187 | An outbound call is accepted if and only if the id is free and the relayer has the rent, the request is complete and signed by the TSS, the vault and its token account have amount and gas fee, and: for a withdrawal the recipient's associated account is passed; for an execution no account signs, those marked are writable and the program is executable; for a self-call the data encodes arguments that the CEA and the token limit can honour; for another program it returns |
| `Admission.PayoutExactly` | contracts/svm-gateway/programs/universal-gateway/src/instructions/revert.rs:73-159 | A revert or rescue is accepted if and only if the id is free and the relayer has the rent, amount and recipient make sense, the TSS signed, the vault or its token account has the amount, and the fee vault has the gas fee above its minimum |
| `Refusals.RefusalIsTrue` | contracts/svm-gateway/programs/universal-gateway/src/instructions/execute.rs:220-347 | Whatever error any instruction ends with, the condition that error names is one the state or the arguments fail |
| `Markers.MarkersStay` | contracts/svm-gateway/programs/universal-gateway/src/instructions/execute.rs:59-68 | After any run, setters included, every sub-transaction in the log has its marker account with the rent-exempt minimum, so the runtime never removes one and no id comes free again |
| `Settings.SettingIsLastWritten` | contracts/svm-gateway/programs/universal-gateway/src/instructions/admin.rs:46-248 | After any run each of the thirteen kinds of settings is what the last successful setter wrote to it; deposits, calls and foreign transactions change none |
| `Settings.ChangeWasEntitled` | contracts/svm-gateway/programs/universal-gateway/src/instructions/admin.rs:8-44 | A setting that differs after a run was set to what it is by whoever was the admin then, or if it is the pause the admin or the pauser, and to a value that makes sense |
| `Settings.SetterExactly` | contracts/svm-gateway/programs/universal-gateway/src/instructions/admin.rs:56-94 | A setter is accepted if and only if its caller signs and is entitled to it, a pause does not block it, its values make sense, and the caller has the rent of an account it opens |
| `Settings.SetterKeepsCounters` | contracts/svm-gateway/programs/universal-gateway/src/instructions/admin.rs:172-248 | No setter touches the counters of the limiters or the executed set, except that setting a token limit starts the epoch of that token afresh |
| `Settings.SetterAnnounces` | contracts/svm-gateway/programs/universal-gateway/src/instructions/admin.rs:81-94 | The event of a setter carries the values in force after it, and exactly the setters without an event emit none |
| `Settings.PauseHolds` | contracts/svm-gateway/programs/universal-gateway/src/instructions/admin.rs:46-54 | From a pause on, until somebody succeeds in unpausing, nothing is executed, nothing is reported but changes of the fee, and neither vault nor any CEA ends with less of any asset |
| `Cea.CeaIsolation` | contracts/svm-gateway/programs/universal-gateway/src/instructions/execute.rs:349-418 | Over any run in which no call for a Push account succeeds, its CEA never holds less of any asset, lamports or tokens |
| `Cea.StepSparesCea` | contracts/svm-gateway/programs/universal-gateway/src/instructions/execute.rs:416 | No step of any kind, foreign programs called by other CEAs included, takes anything from a CEA unless it is an outbound call for that CEA's own Push account |
| `Cea.WithdrawPassesThrough` | contracts/svm-gateway/programs/universal-gateway/src/instructions/withdraw.rs:14-72 | A withdrawal leaves the CEA it passes through exactly as it was, or with exactly the amount when the CEA is the receiver |
| `Cea.WithdrawDelivers` | contracts/svm-gateway/programs/universal-gateway/src/instructions/withdraw.rs:14-72 | The receiver of a withdrawal gains exactly the amount, in SOL or in tokens, less what it pays if it is the vault, plus gas fee less marker rent if it is also the relayer of SOL, plus the rent if it is the executed marker: exact for every receiver |
| `Cea.SelfCallBalances` | contracts/svm-gateway/programs/universal-gateway/src/instructions/withdraw.rs:86-198 | The amount of the from_cea event is what the CEA loses after staging and what the vault gains |
| `Cea.SelfCallMetered` | contracts/svm-gateway/programs/universal-gateway/src/instructions/withdraw.rs:111-148 | That amount is positive and at most what the CEA holds after staging. The limit charged is that of this token, and no other changes: with a non-zero epoch length its use becomes what carries over into the current epoch plus the amount, within the threshold; with a zero length it stays as it is |
| `FeeVault.FeeExact` | contracts/svm-gateway/programs/universal-gateway/src/utils/transfers.rs:60-88 | Over any run the fee vault holds what it held plus collected less reimbursed fees according to the log, if and only if nobody else paid into it |
| `FeeVault.FeeFloor` | contracts/svm-gateway/programs/universal-gateway/src/instructions/deposit.rs:35-66 | It holds at least that, whatever happens |
| `FeeVault.MinimumKept` | contracts/svm-gateway/programs/universal-gateway/src/utils/transfers.rs:70-76 | Over any run the fee vault never ends below its rent-exempt minimum once it is there, or below where it started |
| `FeeVault.FeesSpareTheVault` | contracts/svm-gateway/programs/universal-gateway/src/utils/transfers.rs:60-88 | Neither a reimbursement nor the ledger move that collects a fee changes the bridge vault; the two handlers, `CollectProtocolFee` and `ReimburseRelayer`, promise the same of themselves |
| `Conservation.RunConserves` | contracts/svm-gateway/programs/universal-gateway/src/utils/transfers.rs:8-101 | Over any run the lamports of all accounts together, rent included, and the supply of every mint end as they began, given that foreign code that takes effect neither mints nor burns |
| `Conservation.StepConserves` | contracts/svm-gateway/programs/universal-gateway/src/instructions/execute.rs:59-68 | Every successful step conserves both totals however caller, recipient, user and CEA coincide |
| `LimiterRuns.LogIsHistory` | contracts/svm-gateway/programs/universal-gateway/src/utils/rate_limit.rs:40-97 | While nobody succeeds in changing a token's limit or the epoch length, what the log of any run shows as bridged, deposits and CEA returns together, is a history the limit accepts one by one and the stored counter is its result |
| `LimiterRuns.WindowBound` | contracts/svm-gateway/programs/universal-gateway/src/utils/rate_limit.rs:40-97 | In such a run any window of k epoch lengths bridges at most (k+1) thresholds of the token |
| `LimiterRuns.LogDecides` | contracts/svm-gateway/programs/universal-gateway/src/utils/rate_limit.rs:71-97 | In such a run from a reset on, a request for a supported token passes its limit if and only if what the log shows for the current epoch leaves room for it |
| `LimiterRuns.SlotDecides` | contracts/svm-gateway/programs/universal-gateway/src/utils/rate_limit.rs:21-34 | In any run in which nobody succeeds in changing a non-zero cap, a gas leg passes it if and only if the legs the run accepted in its slot leave room for it; the first leg of a new slot if and only if it is within the cap by itself |
| `LimiterRuns.LegWasWithinCaps` | contracts/svm-gateway/programs/universal-gateway/src/utils/pricing.rs:69-91 | Every gas leg of a run came with an accepted deposit, at the price the oracle gave it, and its exact value was between the USD caps in force at that deposit |
| `LimiterRuns.SlotValueBound` | contracts/svm-gateway/programs/universal-gateway/src/utils/rate_limit.rs:6-37 | While nobody succeeds in changing a non-zero cap, the exact rational USD value of the n gas legs accepted in a slot is below the cap plus n units of 10^-8, whatever prices and exponents were used |
| `LimiterRuns.LegsAreMetered` | contracts/svm-gateway/programs/universal-gateway/src/instructions/deposit.rs:184-200 | The gas legs of every accepted deposit of a run are legs the slot counter accepted, in slot order |
| `Programs.ProcessAll` | contracts/svm-gateway/programs/universal-gateway/src/instructions/execute.rs:119-187 | Running the handlers one after the other on the mutable accounts ends in the state and log of the run, so the theorems about runs are about the handlers |
| `SendHandlers.SendUniversalTx` | contracts/svm-gateway/programs/universal-gateway/src/instructions/deposit.rs:16-33 | The step-by-step deposit fails with the error, or ends in the state and log, that the net description of the call gives; on failure nothing changed |
| `DepositEvents.DepositIsReported` | contracts/svm-gateway/programs/universal-gateway/src/instructions/deposit.rs:35-321 | The log of every accepted deposit, field by field and in order: the fee, the gas (with the payload only when there are no funds), the funds, credited to the recipient named when there is no payload and to the zero address when there is one; sender, revert recipient and signature data those of the call, and never from a CEA |
| `DepositEvents.LogTellsTheDeposit` | contracts/svm-gateway/programs/universal-gateway/src/instructions/deposit.rs:202-321 | Two accepted deposits with the same log, in whatever states, asked for the same in all that is acted on and paid the same native value and fee |
| `SendHandlers.CollectProtocolFee` | contracts/svm-gateway/programs/universal-gateway/src/instructions/deposit.rs:35-66 | The fee moves to the fee vault and is reported, or the call fails because the native amount is below it |
| `SendHandlers.RouteUniversalTx` | contracts/svm-gateway/programs/universal-gateway/src/instructions/deposit.rs:73-92 | For a classified request only the revert recipient, the oracle and slot caps, the token limit and the token accounts can still refuse it, in that order; the rest of the value and the tokens reach the vault |
| `SendHandlers.SendTxWithGasRoute` | contracts/svm-gateway/programs/universal-gateway/src/instructions/deposit.rs:133-216 | The gas route with its type, recipient and zero-amount checks, the caps, whose passing `CapsExactly` and `GasFitsExactly` characterise, the transfer and its event |
| `SendHandlers.SendTxWithFundsRoute` | contracts/svm-gateway/programs/universal-gateway/src/instructions/deposit.rs:220-245 | The funds routes with all their repeated checks, both legs, and the event of the funds leg, whose fields `DepositIsReported` gives |
| `SendHandlers.HandleNativeFundsRoute` | contracts/svm-gateway/programs/universal-gateway/src/instructions/deposit.rs:250-280 | Gas leg and funds leg of native value together move exactly the native value |
| `SendHandlers.HandleSplFundsRoute` | contracts/svm-gateway/programs/universal-gateway/src/instructions/deposit.rs:285-304 | The optional gas leg, then the token limit, then the token transfer to a vault-owned account |
| `SendHandlers.DepositSplToVault` | contracts/svm-gateway/programs/universal-gateway/src/instructions/deposit.rs:325-361 | Source owned by the signer, destination owned by the vault, both of the requested mint; then exactly the amount moves |
| `Deposit.RoutingTable` | contracts/svm-gateway/programs/universal-gateway/src/instructions/deposit.rs:94-124 | For each of the four types, exactly which amount, payload and native value lead to it; all other requests are refused |
| `SendHandlers.FundsRouterSound` | contracts/svm-gateway/programs/universal-gateway/src/instructions/deposit.rs:226-262 | For a funds type the repeated checks of dispatcher and handlers pass if and only if the classifier returns this type and there is a revert recipient |
| `SendHandlers.GasRouterSound` | contracts/svm-gateway/programs/universal-gateway/src/instructions/deposit.rs:142-167 | For a gas type the classifier returned, the repeated type and amount checks of the gas route cannot fail |
| `FinalizeHandlers.FinalizeUniversalTx` | contracts/svm-gateway/programs/universal-gateway/src/instructions/execute.rs:119-187 | The step-by-step outbound call (marker, validation, signature, vault to CEA, gas fee, action, event) agrees with its net description in every mode, error and state; on failure nothing changed |
| `FinalizeHandlers.VerifyExecute` | contracts/svm-gateway/programs/universal-gateway/src/instructions/execute.rs:479-514 | Unpacking the flags, checking the accounts, serialising them and checking the signature comes to a signature over the execute message; the destination must be executable |
| `FinalizeHandlers.VerifyWithdraw` | contracts/svm-gateway/programs/universal-gateway/src/instructions/execute.rs:443-466 | The signature is checked over the withdraw message of this call |
| `FinalizeHandlers.StageAssetsToCea` | contracts/svm-gateway/programs/universal-gateway/src/instructions/execute.rs:349-375 | The amount goes from the vault to the CEA and the gas fee to the caller, or the error says which part could not |
| `FinalizeHandlers.ProcessSplVaultToCeaTransfer` | contracts/svm-gateway/programs/universal-gateway/src/instructions/execute.rs:521-591 | Mint, address and owner checks, opening the CEA's token account at the caller's cost, and the transfer |
| `FinalizeHandlers.InternalWithdraw` | contracts/svm-gateway/programs/universal-gateway/src/instructions/withdraw.rs:14-72 | Vault to CEA to recipient is, in effect, vault to recipient, whoever the recipient is |
| `FinalizeHandlers.SendUniversalTxToUea` | contracts/svm-gateway/programs/universal-gateway/src/instructions/withdraw.rs:86-198 | Argument checks, balance check, limit, return to the vault and the from_cea event, in that order |
| `PayoutHandlers.RevertUniversalTx` | contracts/svm-gateway/programs/universal-gateway/src/instructions/revert.rs:73-159 | The step-by-step revert agrees with the net description of the call in error, state and log; on failure nothing changed |
| `PayoutHandlers.RescueFunds` | contracts/svm-gateway/programs/universal-gateway/src/instructions/rescue.rs:78-164 | The same for a rescue |
| `PayoutHandlers.CheckRevert` | contracts/svm-gateway/programs/universal-gateway/src/instructions/revert.rs:84-120 | Amount, recipient and account consistency, then the signature over the message with id 3 |
| `PayoutHandlers.CheckRescue` | contracts/svm-gateway/programs/universal-gateway/src/instructions/rescue.rs:88-123 | The same with id 4 |
| `AdminHandlers.Administer` | contracts/svm-gateway/programs/universal-gateway/src/instructions/admin.rs:46-248 | Every setter checks its caller and its values and assigns what the description says; on failure nothing changed |
| `AdminHandlers.SetTokenRateLimit` | contracts/svm-gateway/programs/universal-gateway/src/instructions/admin.rs:231-248 | Creates the limit at the caller's cost on first use, and always forgets what the current epoch used |
| `AdminHandlers.UpdateTss` | contracts/svm-gateway/programs/universal-gateway/src/instructions/tss.rs:63-76 | A chain id has 1 to 64 bytes; address and chain id are replaced together |
| `Chains.Chain.ReimburseRelayer` | contracts/svm-gateway/programs/universal-gateway/src/utils/transfers.rs:60-88 | Pays the caller only from what the fee vault holds above its rent-exempt minimum, and reports a non-zero payment |
| `Chains.Chain.PdaSystemTransfer` | contracts/svm-gateway/programs/universal-gateway/src/utils/transfers.rs:8-27 | A transfer of nothing succeeds, any other needs the balance |
| `Chains.Chain.PdaSplTransfer` | contracts/svm-gateway/programs/universal-gateway/src/utils/transfers.rs:30-57 | The same for tokens, with the Token program's checks; a transfer of nothing succeeds and leaves every token account as it is |
| `Chains.Chain.ValidateMessage` | contracts/svm-gateway/programs/universal-gateway/src/instructions/tss.rs:81-112 | Passes if and only if the hash of the rebuilt message is the one given and the key recovered from it has the TSS address; otherwise the error says which |
| `Chains.MoveThrough` | contracts/svm-gateway/programs/universal-gateway/src/instructions/withdraw.rs:33-40 | A payment that passes through an account leaves nothing behind in it, even with the gas fee paid in between |
| `Effects.SendTokens` | contracts/svm-gateway/programs/universal-gateway/src/instructions/deposit.rs:325-361 | A token leg moves exactly its amount from the user's to the vault's holdings of that mint, and touches no other mint |
| `Effects.WithdrawLamports` | contracts/svm-gateway/programs/universal-gateway/src/instructions/execute.rs:349-375 | Lamports of every address after a withdrawal, as a sum of contributions that holds under any coincidence of addresses |
| `Effects.PayoutLamports` | contracts/svm-gateway/programs/universal-gateway/src/instructions/revert.rs:124-156 | The same after a revert or rescue: the vault pays the amount, the fee vault the gas fee |
| `Effects.PayoutTokens` | contracts/svm-gateway/programs/universal-gateway/src/instructions/rescue.rs:126-143 | The tokens of a revert or rescue move from the vault's to the recipient's holdings of that mint |
| `Effects.CpiAtPda` | contracts/svm-gateway/programs/universal-gateway/src/instructions/execute.rs:410-417 | After a call into another program no address of the gateway except the signing CEA holds less than was staged |
| `RateLimit.RateLimitConfig.CheckBlockUsdCap` | contracts/svm-gateway/programs/universal-gateway/src/utils/rate_limit.rs:6-37 | The mutable slot counter does what its step function says, in both outcomes: a leg in another slot than the counter's passes if and only if it is within the cap, one in the same slot if and only if it fits on top |
| `RateLimit.TokenRateLimit.ConsumeRateLimit` | contracts/svm-gateway/programs/universal-gateway/src/utils/rate_limit.rs:40-66 | The mutable epoch counter does what its step function says, in both outcomes |
| `RateLimit.TokenRateLimit.ValidateTokenAndConsume` | contracts/svm-gateway/programs/universal-gateway/src/utils/rate_limit.rs:71-97 | Mint and support checks before metering, which a zero epoch length switches off |
| `RateLimitHistory.CounterRefinesHistory` | contracts/svm-gateway/programs/universal-gateway/src/utils/rate_limit.rs:40-66 | The one-slot counter refines the limiter that remembers everything: after a reset a request is accepted if and only if the sum already accepted in its epoch plus the amount is within the threshold |
| `RateLimitHistory.CounterIsHistory` | contracts/svm-gateway/programs/universal-gateway/src/utils/rate_limit.rs:48-63 | After a reset the counter is exactly the sum of the accepted requests of its epoch |
| `RateLimitHistory.SlidingWindow` | contracts/svm-gateway/programs/universal-gateway/src/utils/rate_limit.rs:40-66 | Whatever state the counter starts in, any window of k epoch lengths accepts at most k+1 thresholds |
| `RateLimitHistory.SlidingWindowIsTight` | contracts/svm-gateway/programs/universal-gateway/src/utils/rate_limit.rs:40-66 | For an epoch length above one second the bound is attained: for every k there is a history of exactly k+1 thresholds in k epoch lengths, so k thresholds is not a bound |
| `RateLimitHistory.SlidingWindowOfSeconds` | contracts/svm-gateway/programs/universal-gateway/src/utils/rate_limit.rs:40-66 | For an epoch length of one second k thresholds is the bound |
| `RateLimitHistory.NoLimitExactly` | contracts/svm-gateway/programs/universal-gateway/src/instructions/admin.rs:230-239 | Every amount passes if and only if the token matches, its threshold is positive and metering is off or leaves room for the largest amount; a zero threshold refuses everything, contrary to the setter's comment |
| `RateLimitHistory.RealUsdPerSlot` | contracts/svm-gateway/programs/universal-gateway/src/utils/rate_limit.rs:6-37 | The exact USD value of the legs accepted in a slot is below the cap plus one unit for each |
| `RateLimitHistory.SlotCounter` | contracts/svm-gateway/programs/universal-gateway/src/utils/rate_limit.rs:21-34 | The metered value accepted in any one slot never exceeds the cap, whatever the counter held before |
| `RateLimitHistory.SlotRefinesHistory` | contracts/svm-gateway/programs/universal-gateway/src/utils/rate_limit.rs:6-37 | The one-slot counter refines the cap that remembers every leg: from any state, with slots in order, a further leg is accepted if and only if the metered legs of its slot plus its value are within the cap, and every new slot has the whole cap |
| `RateLimitHistory.SlotIsHistory` | contracts/svm-gateway/programs/universal-gateway/src/utils/rate_limit.rs:21-34 | What the counter holds is the sum of the legs of its slot, after what it started with in that slot |
| `Pricing.UsdIsSingleFloor` | contracts/svm-gateway/programs/universal-gateway/src/utils/pricing.rs:40-66 | In both exponent branches the computed amount is the exact value lamports * price * 10^(exponent - 1) rounded down once |
| `Pricing.UsdSuperadditive` | contracts/svm-gateway/programs/universal-gateway/src/utils/pricing.rs:40-66 | Monotone, and splitting a deposit in two lowers its metered value by at most one unit and never raises it |
| `Pricing.UsdDefined` | contracts/svm-gateway/programs/universal-gateway/src/utils/pricing.rs:44-63 | Exactly when a positive price yields an amount; never fails for exponents from -46 to -8 |
| `Pricing.CapsExactly` | contracts/svm-gateway/programs/universal-gateway/src/utils/pricing.rs:69-91 | A deposit passes the USD caps if and only if there is a fresh positive price, precise enough for a non-zero threshold, the amount converts and minCap <= usd <= maxCap, which is the same as minCap <= exact value < maxCap + 1; and exactly when it is refused as too small or too large |
| `Admission.GasFitsExactly` | contracts/svm-gateway/programs/universal-gateway/src/instructions/deposit.rs:184-200 | Oracle, conversion, USD caps and slot cap together, against the exact value; an empty gas leg meets none of them |
| `Pricing.Pow10FitsU128` | contracts/svm-gateway/programs/universal-gateway/src/utils/pricing.rs:55-60 | The exponent at which the power of ten no longer fits, where the program panics |
| `Messages.BuildMessage` | contracts/svm-gateway/programs/universal-gateway/src/instructions/tss.rs:90-101 | The buffer the validator grows is prefix, id, chain id, amount and the additional parts in order |
| `SignedLayout.SignedBytesAreLaidOut` | contracts/svm-gateway/programs/universal-gateway/src/instructions/execute.rs:443-514 | Of every message of the six shapes, the offset of each field in the signed bytes: prefix, number of the instruction and chain id, the amount and the gas fee digit by digit, ids, Push account, asset, recipient or program, and the serialised accounts and data at the end |
| `Messages.DecodeSigned` | contracts/svm-gateway/programs/universal-gateway/src/instructions/execute.rs:443-514 | Every signed message of the six shapes can be read back whole from its bytes, given the length of the chain id and counts below 2^32 |
| `Messages.SignedBytesInjective` | contracts/svm-gateway/programs/universal-gateway/src/instructions/tss.rs:90-101 | Equal bytes under chain ids of equal length imply the same chain, instruction and fields |
| `Messages.ChainIdIsNotDelimited` | contracts/svm-gateway/programs/universal-gateway/src/instructions/tss.rs:92-95 | An example among payouts: the bytes of every token revert are also those of a SOL revert under the chain id extended by 32 bytes of the message |
| `ChainIds.ChainIdsConfusedExactly` | contracts/svm-gateway/programs/universal-gateway/src/instructions/tss.rs:63-76 | For any two chain ids of 1 to 64 bytes, strings included: some message under one has the bytes of another message, or of the same under the other, if and only if one chain id is a proper prefix of the other. An admin can check this before `update_tss` |
| `ChainIds.SignedBytesDetermine` | contracts/svm-gateway/programs/universal-gateway/src/instructions/tss.rs:90-101 | Equal bytes under chain ids neither of which is a proper prefix of the other imply the same chain, instruction and fields |
| `ChainIds.ExtensionConfuses` | contracts/svm-gateway/programs/universal-gateway/src/instructions/execute.rs:479-514 | For every chain id and every extension of it by up to 64 bytes there are two execute messages with the same bytes |
| `ChainIds.MessageInIs` | contracts/svm-gateway/programs/universal-gateway/src/instructions/tss.rs:90-101 | Among chain ids that are none a prefix of another, signed bytes encode exactly one message |
| `ShortMessages.ShortConfusedExactly` | contracts/svm-gateway/programs/universal-gateway/src/instructions/execute.rs:479-514 | For messages a transaction can hold, with fewer than 256 accounts and less than 65536 bytes of data: two chain ids of 1 to 64 bytes can be confused if and only if one extends the other by three bytes or more |
| `Rotation.PayingTwins` | contracts/svm-gateway/programs/universal-gateway/src/instructions/execute.rs:479-514 | For every extension of 8 to 31 bytes and every amount there are two SOL calls of different sub-transactions with the same bytes, of which the second pays that amount and the first the number the extension begins with |
| `Rotation.OverlapPaysTwice` | contracts/svm-gateway/programs/universal-gateway/src/instructions/tss.rs:63-76 | So the hypothesis on chain ids is needed: from any world with the funds there is a run with one `update_tss`, to such an extension of the chain id, in which one signed message is accepted twice and pays twice, and its outflow is not what the accepted bytes stand for |
| `Encoding.SerializeGatewayAccounts` | contracts/svm-gateway/programs/universal-gateway/src/utils/encoding.rs:11-19 | Count, then 33 bytes for each account, in order |
| `Encoding.ValidateRemainingAccounts` | contracts/svm-gateway/programs/universal-gateway/src/utils/validation.rs:17-52 | Passes if and only if no account signs and every account signed as writable is writable |
| `Encoding.WithBitEffect` | contracts/svm-gateway/app/execute-payload.ts:149-155 | Setting a bit sets that bit, most significant first, and no other |
| `Encoding.ReconstructAccountsFromFlags` | contracts/svm-gateway/programs/universal-gateway/src/instructions/execute.rs:420-432 | Account i is rebuilt with its key, and as writable if and only if flags[i / 8] divided by 2^(7 - i % 8) is odd |
| `Encoding.BitWeight` | contracts/svm-gateway/programs/universal-gateway/src/instructions/execute.rs:429 | Shifting right by n and masking is dividing by 2^n and taking the remainder by 2 |
| `Bytes.BigEndianDigit` | contracts/svm-gateway/programs/universal-gateway/src/utils/encoding.rs:5-7 | Byte i of an encoded integer is its digit of weight 256^(width - 1 - i): most significant first |
| `Bytes.LittleEndianDigit` | contracts/svm-gateway/programs/universal-gateway/src/instructions/withdraw.rs:98-105 | The same for Borsh, least significant first |
| `ExecutePayload.DecodeExecutePayload` | contracts/svm-gateway/app/execute-payload.ts:78-135 | Returns a payload if and only if the buffer holds one, field by field, and then its length is 41 + 33 n + m for its own headers |
| `ExecutePayload.RoundTrip` | contracts/svm-gateway/app/execute-payload.ts:40-135 | Decoding an encoding gives the payload back; encoding fails only for counts or lengths of 2^32 and more |
| `ExecutePayload.ReencodesExactly` | contracts/svm-gateway/app/execute-payload.ts:86-91 | Encoding a decoded payload gives the buffer back if and only if every flag byte in it is 0 or 1 |
| `ExecutePayload.AccountsToWritableFlags` | contracts/svm-gateway/app/execute-payload.ts:143-157 | For every i, flags[i / 8] divided by 2^(7 - i % 8) is odd if and only if account i exists and is writable: most significant bit first, padding clear |
| `ExecutePayload.UnpackPacked` | contracts/svm-gateway/programs/universal-gateway/src/instructions/execute.rs:420-432 | Unpacking packed flags over the same accounts gives the account list back |
| `ExecutePayload.SignedBytesAreThePayload` | contracts/svm-gateway/app/execute-payload.ts:40-157 | Encode, decode, pack, unpack and serialise: the bytes that are signed are the encoded payload without its last 33 bytes, for every account list and data |
| `UeaArguments.ParseEncoded` | contracts/svm-gateway/programs/universal-gateway/src/instructions/withdraw.rs:98-105 | Arguments parse back from discriminator and Borsh encoding |
| `UeaArguments.ParsedIsEncoded` | contracts/svm-gateway/programs/universal-gateway/src/instructions/withdraw.rs:98-105 | Only encodings parse, and they are 84 bytes longer than the payload |
| `Finalize.ValidateFinalizeRequest` | contracts/svm-gateway/programs/universal-gateway/src/instructions/execute.rs:220-287 | A request is accepted if and only if it has the accounts of its asset and is complete for its mode: a withdrawal with recipient, Push account and amount and without flags, data or further accounts; an execution without a recipient and with one flag for each account. It is then what its arguments say |

## Left out

- Cryptography: keccak, SHA-256 (the discriminator is a constant) and secp256k1 recovery are not modelled beyond being functions.
- Oracle: price age and feed id are folded into whether a fresh price is present; publish time is dropped.
- The target program of an execute call, and the account metas it is given: only what the runtime lets it do to balances.
- Token accounts: delegates, close authorities, frozen accounts, extensions, and accounts that are not token accounts (an address without one is reported as InvalidOwner or InvalidAccount as the code would).
- Overflow of u64 balances: lamports and tokens are unbounded here; total supplies keep the real ones in range.
- Runtime: compute and size limits, rent-state transitions of other accounts than the fee vault, account reallocation, duplicate account indices.
- Anchor: seeds, bumps and discriminators of accounts; creation of the config, fee vault, rate-limit config and TSS accounts (`initialize`, `init_tss`, first use of the setters), which are taken to exist.
- Chain id and revert message are bytes; UTF-8 validity is not modelled. The revert message is not part of the signed message, in the code or here.
- `get_sol_price`, `instructionToPayloadFields`, the command-line tools, deployment scripts and test programs: plumbing without a property of their own.
- Conservation.RunConserves: that other transactions and target programs conserve lamports and supplies is a hypothesis, because nothing in this repository enforces it.
- Authorisation.OutflowIsSigned: for runs whose chain ids are none a proper prefix of another. `OverlapPaysTwice` shows that it fails otherwise, and `ShortConfusedExactly` what remains of that for messages of a transaction's size; the size limit itself is not modelled.
- Liveness.WithdrawCannotBeBlocked: says nothing of execute calls, whose target program may refuse, or of self-calls, which a token limit may refuse.
