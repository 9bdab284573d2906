/** What each action of the transfer form does, seen from outside: the form after any actions
    and one more. */
module TransferStoreEffects {
  import opened Options
  import opened TransferStore

  lemma OneMore(run: seq<Action>, a: Action)
    ensures After(run + [a]) == Reduce(After(run), a)
  {
    assert (run + [a])[..|run|] == run;
  }

  /** Everything known about the token to send is gone. */
  predicate SourceCleared(s: State) {
    s.sourceParsedTokenAccount.None? && s.isSourceAssetWormholeWrapped.None? && s.originChain.None? && s.originAsset.None?
  }

  /** Everything known about what arrives is gone. */
  predicate TargetCleared(s: State) {
    s.targetAsset.data.None? && s.targetAsset.error.None? && !s.targetAsset.isFetching && s.targetAsset.receivedAt.None?
    && s.targetParsedTokenAccount.None? && s.targetAddressHex.None?
  }

  predicate ListCleared(s: State) {
    var l := s.sourceParsedTokenAccounts;
    l.data.None? && l.error.None? && !l.isFetching && l.receivedAt.None?
  }

  // ----- the chains -----

  /** The source is the chain chosen; the target gives way to the former source if it was
      that chain. All that depends on the source is cleared. */
  lemma SourceChainSet(run: seq<Action>, c: ChainId)
    ensures var s, t := After(run), After(run + [SetSourceChain(c)]);
      t.sourceChain == c && t.targetChain == (if s.targetChain == c then s.sourceChain else s.targetChain)
      && SourceCleared(t) && TargetCleared(t) && ListCleared(t) && t.activeStep == s.activeStep
  {
    OneMore(run, SetSourceChain(c));
  }

  /** The target is the chain chosen; the source gives way to the former target if it was that
      chain, and then the form starts over with it. */
  lemma TargetChainSet(run: seq<Action>, c: ChainId)
    ensures var s, t := After(run), After(run + [SetTargetChain(c)]);
      t.targetChain == c && t.sourceChain == (if s.sourceChain == c then s.targetChain else s.sourceChain)
      && TargetCleared(t)
      && if s.sourceChain == c then t.activeStep == 0 && SourceCleared(t) && ListCleared(t)
         else t.activeStep == s.activeStep && t.sourceParsedTokenAccount == s.sourceParsedTokenAccount
              && t.sourceParsedTokenAccounts == s.sourceParsedTokenAccounts && t.originChain == s.originChain
              && t.originAsset == s.originAsset && t.isSourceAssetWormholeWrapped == s.isSourceAssetWormholeWrapped
  {
    OneMore(run, SetTargetChain(c));
  }

  /** Choosing the target's chain as source swaps the two; doing it again swaps them back. */
  lemma SwapTwice(run: seq<Action>)
    ensures var s := After(run);
      var t := After(run + [SetSourceChain(s.targetChain)]);
      var u := After(run + [SetSourceChain(s.targetChain)] + [SetSourceChain(s.sourceChain)]);
      t.sourceChain == s.targetChain && t.targetChain == s.sourceChain
      && u.sourceChain == s.sourceChain && u.targetChain == s.targetChain
  {
    var s := After(run);
    SourceChainSet(run, s.targetChain);
    SourceChainSet(run + [SetSourceChain(s.targetChain)], s.sourceChain);
  }

  // ----- the other actions: what the form shows of the values given -----

  /** A list of source tokens that has arrived. */
  predicate ListHas(s: State, accounts: seq<Account>, at: string) {
    var l := s.sourceParsedTokenAccounts;
    l.data == Some(accounts) && l.receivedAt == Some(at) && l.error.None? && !l.isFetching
  }

  predicate ListFailed(s: State, message: string) {
    var l := s.sourceParsedTokenAccounts;
    l.data.None? && l.receivedAt.None? && l.error == Some(message) && !l.isFetching
  }

  /** What the form `t` shows right after the action, when it was `s` before. New data about
      the target asset invalidates the account found for the old; a signed message ends
      sending and a redeeming transaction redeeming; steps stop at the ends. */
  predicate Shows(s: State, a: Action, t: State) {
    match a
    case IncrementStep => t.activeStep == if s.activeStep < 3 then s.activeStep + 1 else s.activeStep
    case DecrementStep => t.activeStep == if s.activeStep > 0 then s.activeStep - 1 else 0
    case SetStep(step) => t.activeStep == step
    case SetSourceChain(c) => t.sourceChain == c
    case SetSourceWormholeWrappedInfo(wrapped, chain, asset) =>
      t.isSourceAssetWormholeWrapped == Some(wrapped) && t.originChain == Some(chain) && t.originAsset == Some(asset)
    case SetSourceWalletAddress(address) => t.sourceWalletAddress == address
    case SetSourceParsedTokenAccount(account) =>
      t.sourceParsedTokenAccount == account && TargetCleared(t)
      && t.isSourceAssetWormholeWrapped.None? && t.originChain.None? && t.originAsset.None?
    case SetSourceParsedTokenAccounts(accounts, at) =>
      if accounts.Some? then ListHas(t, accounts.value, at) else ListCleared(t)
    case FetchSourceParsedTokenAccounts =>
      t.sourceParsedTokenAccounts.isFetching && t.sourceParsedTokenAccounts.data.None?
      && t.sourceParsedTokenAccounts.error.None?
    case ErrorSourceParsedTokenAccounts(error) =>
      ListFailed(t, if error.Some? && error.value != "" then error.value else "An unknown error occurred.")
    case ReceiveSourceParsedTokenAccounts(accounts, at) => ListHas(t, accounts, at)
    case SetAmount(amount) => t.amount == amount
    case SetTargetChain(c) => t.targetChain == c
    case SetTargetAddressHex(address) => t.targetAddressHex == address
    case SetTargetAsset(asset) => t.targetAsset == asset && t.targetParsedTokenAccount.None?
    case SetTargetParsedTokenAccount(account) => t.targetParsedTokenAccount == account
    case SetTransferTx(tx) => t.transferTx == Some(tx)
    case SetSignedVAAHex(vaa) => t.signedVAAHex == Some(vaa) && !t.isSending && t.activeStep == 3
    case SetIsSending(flag) => t.isSending == flag
    case SetIsRedeeming(flag) => t.isRedeeming == flag
    case SetRedeemTx(tx) => t.redeemTx == Some(tx) && !t.isRedeeming
    case SetIsApproving(flag) => t.isApproving == flag
    case Reset => !t.isRecovery && t.signedVAAHex.None? && t.transferTx.None? && t.amount == "" && t.activeStep == 0
    case SetRecoveryVaa(vaa, target, targetAddress, origin, originAddress, recovered) =>
      t.signedVAAHex == Some(vaa) && t.isRecovery && t.activeStep == 3 && t.amount == recovered
      && t.targetChain == target && t.sourceChain == (if s.sourceChain == target then s.targetChain else s.sourceChain)
      && t.targetAddressHex == Some(targetAddress) && t.originChain == Some(origin) && t.originAsset == Some(originAddress)
      && t.sourceParsedTokenAccount.None? && t.isSourceAssetWormholeWrapped.None? && ListCleared(t)
      && t.targetAsset.data.None? && t.targetParsedTokenAccount.None?
  }

  lemma StepShows(s: State, a: Action)
    ensures Shows(s, a, Reduce(s, a))
  {
  }

  /** After any actions, each action shows what it was given. */
  lemma ActionShows(run: seq<Action>, a: Action)
    ensures Shows(After(run), a, After(run + [a]))
  {
    OneMore(run, a);
    StepShows(After(run), a);
  }

  /** A reset is a fresh form, but for the chains. */
  lemma ResetKeepsChains(run: seq<Action>)
    ensures var s, t := After(run), After(run + [Reset]);
      t.sourceChain == s.sourceChain && t.targetChain == s.targetChain
      && t.(sourceChain := 1, targetChain := 2) == After([])
  {
    OneMore(run, Reset);
  }

  // ----- and nothing else -----

  /** Who may change the chains and what is known about the source. */
  lemma SourceKept(run: seq<Action>, a: Action)
    ensures var s, t := After(run), After(run + [a]);
      var chains := a.SetSourceChain? || a.SetTargetChain? || a.SetRecoveryVaa?;
      (!chains ==> t.sourceChain == s.sourceChain && t.targetChain == s.targetChain)
      && (!chains && !a.Reset? && !a.SetSourceParsedTokenAccount? ==> t.sourceParsedTokenAccount == s.sourceParsedTokenAccount)
      && (!chains && !a.Reset? && !a.SetSourceParsedTokenAccount? && !a.SetSourceWormholeWrappedInfo? ==>
            t.isSourceAssetWormholeWrapped == s.isSourceAssetWormholeWrapped && t.originChain == s.originChain
            && t.originAsset == s.originAsset)
      && (!chains && !a.Reset? && !a.SetSourceParsedTokenAccounts? && !a.FetchSourceParsedTokenAccounts?
          && !a.ErrorSourceParsedTokenAccounts? && !a.ReceiveSourceParsedTokenAccounts? ==>
            t.sourceParsedTokenAccounts == s.sourceParsedTokenAccounts)
      && (!a.SetSourceWalletAddress? && !a.Reset? ==> t.sourceWalletAddress == s.sourceWalletAddress)
  {
    OneMore(run, a);
  }

  /** Who may change what is known about the target. */
  lemma TargetKept(run: seq<Action>, a: Action)
    ensures var s, t := After(run), After(run + [a]);
      var source := a.SetSourceChain? || a.SetTargetChain? || a.SetRecoveryVaa? || a.SetSourceParsedTokenAccount? || a.Reset?;
      (!source && !a.SetTargetAddressHex? ==> t.targetAddressHex == s.targetAddressHex)
      && (!source && !a.SetTargetAsset? ==> t.targetAsset == s.targetAsset)
      && (!source && !a.SetTargetAsset? && !a.SetTargetParsedTokenAccount? ==>
            t.targetParsedTokenAccount == s.targetParsedTokenAccount)
  {
    OneMore(run, a);
  }

  /** Who may change the transactions, the signed message and the amount. */
  predicate KeepsTransfer(s: State, a: Action, t: State) {
    (a.SetAmount? || a.SetRecoveryVaa? || a.Reset? || t.amount == s.amount)
    && (a.SetTransferTx? || a.Reset? || t.transferTx == s.transferTx)
    && (a.SetSignedVAAHex? || a.SetRecoveryVaa? || a.Reset? || t.signedVAAHex == s.signedVAAHex)
    && (a.SetRedeemTx? || a.Reset? || t.redeemTx == s.redeemTx)
    && (a.SetRecoveryVaa? || a.Reset? || t.isRecovery == s.isRecovery)
  }

  /** Who may change the progress. */
  predicate KeepsProgress(s: State, a: Action, t: State) {
    (a.SetIsSending? || a.SetSignedVAAHex? || a.Reset? || t.isSending == s.isSending)
    && (a.SetIsRedeeming? || a.SetRedeemTx? || a.Reset? || t.isRedeeming == s.isRedeeming)
    && (a.SetIsApproving? || a.Reset? || t.isApproving == s.isApproving)
  }

  /** Who may change the step. */
  predicate KeepsStep(s: State, a: Action, t: State) {
    (a.IncrementStep? || a.DecrementStep? || a.SetStep? || a.SetTargetChain? || a.SetSignedVAAHex?
        || a.SetRecoveryVaa? || a.Reset? || t.activeStep == s.activeStep)
  }

  lemma StepKeepsTransfer(s: State, a: Action)
    ensures KeepsTransfer(s, a, Reduce(s, a))
  {
  }

  lemma StepKeepsProgress(s: State, a: Action)
    ensures KeepsProgress(s, a, Reduce(s, a))
  {
  }

  lemma StepKeepsStep(s: State, a: Action)
    ensures KeepsStep(s, a, Reduce(s, a))
  {
  }

  lemma TransferKept(run: seq<Action>, a: Action)
    ensures KeepsTransfer(After(run), a, After(run + [a])) && KeepsProgress(After(run), a, After(run + [a]))
    ensures KeepsStep(After(run), a, After(run + [a]))
  {
    OneMore(run, a);
    StepKeepsTransfer(After(run), a);
    StepKeepsProgress(After(run), a);
    StepKeepsStep(After(run), a);
  }

  /** The form before any action. */
  lemma FreshForm()
    ensures var s := After([]);
      s.sourceChain == 1 && s.targetChain == 2 && s.activeStep == 0 && s.amount == "" && s.sourceWalletAddress.None?
      && s.sourceParsedTokenAccount.None? && s.isSourceAssetWormholeWrapped == Some(false) && s.originChain.None?
      && s.originAsset.None? && ListCleared(s) && TargetCleared(s) && s.transferTx.None? && s.signedVAAHex.None?
      && s.redeemTx.None? && !s.isSending && !s.isRedeeming && !s.isApproving && !s.isRecovery
  {
  }

  // ----- the target selector -----

  /** The form may be sent exactly if nothing is missing: no error at the source, a target
      chain, a registered asset there and an account to receive it. */
  lemma TargetReadyIff(run: seq<Action>, sourceError: Option<string>, isEvm: ChainId -> bool, zeroAddress: string)
    ensures var s := After(run);
      TargetErrorOf(s, sourceError, isEvm, zeroAddress) == None <==>
        sourceError == None && s.targetChain != 0
        && s.targetAsset.data.Some? && s.targetAsset.data.value.address.Some? && s.targetAsset.data.value.address.value != ""
        && !(isEvm(s.targetChain) && s.targetAsset.data.value.address.value == zeroAddress)
        && s.targetAddressHex.Some? && s.targetAddressHex.value != ""
  {
    AlwaysSafe(run);
  }

  /** Otherwise the first thing that is missing is named: the source's own error, the target
      chain, a usable address of the asset on the target chain, or the receiving account. */
  lemma TargetErrorNames(run: seq<Action>, sourceError: Option<string>, isEvm: ChainId -> bool, zeroAddress: string)
    ensures var s := After(run); var error := TargetErrorOf(s, sourceError, isEvm, zeroAddress);
      var registered := s.targetAsset.data.Some? && s.targetAsset.data.value.address.Some?
                        && s.targetAsset.data.value.address.value != ""
                        && !(isEvm(s.targetChain) && s.targetAsset.data.value.address.value == zeroAddress);
      (error == Some(SelectTarget) <==> sourceError == None && s.targetChain == 0)
      && (error == Some(Unregistered) <==> sourceError == None && s.targetChain != 0 && !registered)
      && (error == Some(NoTargetAccount) <==> sourceError == None && s.targetChain != 0 && registered
                                              && (s.targetAddressHex == None || s.targetAddressHex == Some("")))
      && forall e :: error == Some(InSource(e)) <==> sourceError == Some(e)
  {
    AlwaysSafe(run);
  }
}
