/** The transfer form's store: what its reducers keep over every sequence of actions. */
module TransferStore {
  import opened Options

  type ChainId = nat
  const SOLANA: ChainId := 1
  const ETHEREUM: ChainId := 2
  const LAST_STEP := 3
  type Step = n: nat | n <= 3

  datatype Account = Account(publicKey: string, mintKey: string, decimals: nat, uiAmountString: string)
  datatype Tx = Tx(id: string, block: nat)
  datatype ForeignAsset = ForeignAsset(doesExist: bool, address: Option<string>)

  /** Fetched data with its fetching status. */
  datatype Wrapper<T> = Wrapper(data: Option<T>, error: Option<string>, isFetching: bool, receivedAt: Option<string>)

  function Empty<T>(): Wrapper<T> { Wrapper(None, None, false, None) }
  function Received<T>(data: T, at: string): Wrapper<T> { Wrapper(Some(data), None, false, Some(at)) }
  function Failed<T>(error: string): Wrapper<T> { Wrapper(None, Some(error), false, None) }
  function Fetching<T>(): Wrapper<T> { Wrapper(None, None, true, None) }

  datatype State = State(
    activeStep: nat,
    sourceChain: ChainId,
    isSourceAssetWormholeWrapped: Option<bool>,
    originChain: Option<ChainId>,
    originAsset: Option<string>,
    sourceWalletAddress: Option<string>,
    sourceParsedTokenAccount: Option<Account>,
    sourceParsedTokenAccounts: Wrapper<seq<Account>>,
    amount: string,
    targetChain: ChainId,
    targetAddressHex: Option<string>,
    targetAsset: Wrapper<ForeignAsset>,
    targetParsedTokenAccount: Option<Account>,
    transferTx: Option<Tx>,
    signedVAAHex: Option<string>,
    isSending: bool,
    isRedeeming: bool,
    redeemTx: Option<Tx>,
    isApproving: bool,
    isRecovery: bool)

  const INITIAL := State(0, SOLANA, Some(false), None, None, None, None, Empty(), "", ETHEREUM, None, Empty(), None,
                         None, None, false, false, None, false, false)

  datatype Action =
    | IncrementStep
    | DecrementStep
    | SetStep(step: Step)
    | SetSourceChain(chain: ChainId)
    | SetSourceWormholeWrappedInfo(isWrapped: bool, chainId: ChainId, assetAddress: string)
    | SetSourceWalletAddress(address: Option<string>)
    | SetSourceParsedTokenAccount(account: Option<Account>)
    | SetSourceParsedTokenAccounts(accounts: Option<seq<Account>>, at: string)
    | FetchSourceParsedTokenAccounts
    | ErrorSourceParsedTokenAccounts(error: Option<string>)
    | ReceiveSourceParsedTokenAccounts(received: seq<Account>, at: string)
    | SetAmount(amount: string)
    | SetTargetChain(chain: ChainId)
    | SetTargetAddressHex(address: Option<string>)
    | SetTargetAsset(asset: Wrapper<ForeignAsset>)
    | SetTargetParsedTokenAccount(account: Option<Account>)
    | SetTransferTx(tx: Tx)
    | SetSignedVAAHex(vaa: string)
    | SetIsSending(flag: bool)
    | SetIsRedeeming(flag: bool)
    | SetRedeemTx(tx: Tx)
    | SetIsApproving(flag: bool)
    | Reset
    | SetRecoveryVaa(vaa: string, target: ChainId, targetAddress: string, origin: ChainId, originAddress: string,
                     recovered: string)

  function OrUnknown(error: Option<string>): string {
    if error.None? || error.value == "" then "An unknown error occurred." else error.value
  }

  /** The state after one action. */
  function Reduce(s: State, a: Action): State {
    match a
    case IncrementStep => if s.activeStep < LAST_STEP then s.(activeStep := s.activeStep + 1) else s
    case DecrementStep => if s.activeStep > 0 then s.(activeStep := s.activeStep - 1) else s
    case SetStep(step) => s.(activeStep := step)
    case SetSourceChain(chain) =>
      s.(sourceChain := chain, sourceParsedTokenAccount := None, sourceParsedTokenAccounts := Empty(),
         targetAsset := Empty(), targetParsedTokenAccount := None, targetAddressHex := None,
         isSourceAssetWormholeWrapped := None, originChain := None, originAsset := None,
         targetChain := if s.targetChain == chain then s.sourceChain else s.targetChain)
    case SetSourceWormholeWrappedInfo(w, chain, asset) =>
      s.(isSourceAssetWormholeWrapped := Some(w), originChain := Some(chain), originAsset := Some(asset))
    case SetSourceWalletAddress(address) => s.(sourceWalletAddress := address)
    case SetSourceParsedTokenAccount(account) =>
      s.(sourceParsedTokenAccount := account, targetAsset := Empty(), targetParsedTokenAccount := None,
         targetAddressHex := None, isSourceAssetWormholeWrapped := None, originChain := None, originAsset := None)
    case SetSourceParsedTokenAccounts(accounts, at) =>
      s.(sourceParsedTokenAccounts := if accounts.Some? then Received(accounts.value, at) else Empty())
    case FetchSourceParsedTokenAccounts => s.(sourceParsedTokenAccounts := Fetching())
    case ErrorSourceParsedTokenAccounts(error) => s.(sourceParsedTokenAccounts := Failed(OrUnknown(error)))
    case ReceiveSourceParsedTokenAccounts(accounts, at) => s.(sourceParsedTokenAccounts := Received(accounts, at))
    case SetAmount(amount) => s.(amount := amount)
    case SetTargetChain(chain) =>
      var t := s.(targetChain := chain, targetAddressHex := None, targetAsset := Empty(), targetParsedTokenAccount := None);
      if s.sourceChain == chain then
        t.(sourceChain := s.targetChain, activeStep := 0, sourceParsedTokenAccount := None,
           isSourceAssetWormholeWrapped := None, originChain := None, originAsset := None,
           sourceParsedTokenAccounts := Empty())
      else t
    case SetTargetAddressHex(address) => s.(targetAddressHex := address)
    case SetTargetAsset(asset) => s.(targetAsset := asset, targetParsedTokenAccount := None)
    case SetTargetParsedTokenAccount(account) => s.(targetParsedTokenAccount := account)
    case SetTransferTx(tx) => s.(transferTx := Some(tx))
    case SetSignedVAAHex(vaa) => s.(signedVAAHex := Some(vaa), isSending := false, activeStep := 3)
    case SetIsSending(flag) => s.(isSending := flag)
    case SetIsRedeeming(flag) => s.(isRedeeming := flag)
    case SetRedeemTx(tx) => s.(redeemTx := Some(tx), isRedeeming := false)
    case SetIsApproving(flag) => s.(isApproving := flag)
    case Reset => INITIAL.(sourceChain := s.sourceChain, targetChain := s.targetChain)
    case SetRecoveryVaa(vaa, target, targetAddress, origin, originAddress, recovered) =>
      s.(signedVAAHex := Some(vaa), targetChain := target,
         sourceChain := if s.sourceChain == target then s.targetChain else s.sourceChain,
         sourceParsedTokenAccount := None, sourceParsedTokenAccounts := Empty(), targetAsset := Empty(),
         targetParsedTokenAccount := None, isSourceAssetWormholeWrapped := None, targetAddressHex := Some(targetAddress),
         originChain := Some(origin), originAsset := Some(originAddress), amount := recovered, activeStep := 3,
         isRecovery := true)
  }

  // ----- every action sequence -----

  function After(run: seq<Action>): State {
    if run == [] then INITIAL else Reduce(After(run[..|run| - 1]), run[|run| - 1])
  }

  ghost predicate Inv(s: State) {
    s.sourceChain != s.targetChain && s.activeStep <= LAST_STEP
    && (s.isRecovery ==> s.signedVAAHex.Some?)
  }

  lemma ReduceSafe(s: State, a: Action)
    requires Inv(s)
    ensures Inv(Reduce(s, a))
  {
  }

  /** After any actions, source and target chain differ, the step is a step, and a recovery
      has its signed message. */
  lemma {:induction false} AlwaysSafe(run: seq<Action>)
    ensures Inv(After(run))
  {
    if run != [] {
      AlwaysSafe(run[..|run| - 1]);
      ReduceSafe(After(run[..|run| - 1]), run[|run| - 1]);
    }
  }

  // ----- the store -----

  /** The store, whose reducers assign a draft field by field. */
  class Slice {
    var state: State
    ghost var history: seq<Action>

    /** The state is what the actions dispatched so far make it. */
    ghost predicate Valid()
      reads this
    {
      state == After(history)
    }

    constructor ()
      ensures Valid() && history == []
    {
      state := INITIAL;
      history := [];
    }

    method SetSourceChain(chain: ChainId)
      modifies this`state
      ensures state == Reduce(old(state), Action.SetSourceChain(chain))
    {
      var draft := state;
      var prevSourceChain := draft.sourceChain;
      draft := draft.(sourceChain := chain);
      draft := draft.(sourceParsedTokenAccount := None);
      draft := draft.(sourceParsedTokenAccounts := Empty());
      draft := draft.(targetAsset := Empty());
      draft := draft.(targetParsedTokenAccount := None);
      draft := draft.(targetAddressHex := None);
      draft := draft.(isSourceAssetWormholeWrapped := None);
      draft := draft.(originChain := None);
      draft := draft.(originAsset := None);
      if draft.targetChain == chain {
        draft := draft.(targetChain := prevSourceChain);
      }
      state := draft;
    }

    method SetTargetChain(chain: ChainId)
      modifies this`state
      ensures state == Reduce(old(state), Action.SetTargetChain(chain))
    {
      var draft := state;
      var prevTargetChain := draft.targetChain;
      draft := draft.(targetChain := chain);
      draft := draft.(targetAddressHex := None);
      draft := draft.(targetAsset := Empty());
      draft := draft.(targetParsedTokenAccount := None);
      if draft.sourceChain == chain {
        draft := draft.(sourceChain := prevTargetChain);
        draft := draft.(activeStep := 0);
        draft := draft.(sourceParsedTokenAccount := None);
        draft := draft.(isSourceAssetWormholeWrapped := None);
        draft := draft.(originChain := None);
        draft := draft.(originAsset := None);
        draft := draft.(sourceParsedTokenAccounts := Empty());
      }
      state := draft;
    }

    method SetRecoveryVaa(vaa: string, target: ChainId, targetAddress: string, origin: ChainId, originAddress: string,
                          recovered: string)
      modifies this`state
      ensures state == Reduce(old(state), Action.SetRecoveryVaa(vaa, target, targetAddress, origin, originAddress, recovered))
    {
      var draft := state;
      var prevTargetChain := draft.targetChain;
      draft := draft.(signedVAAHex := Some(vaa));
      draft := draft.(targetChain := target);
      if draft.sourceChain == target {
        draft := draft.(sourceChain := prevTargetChain);
      }
      draft := draft.(sourceParsedTokenAccount := None);
      draft := draft.(sourceParsedTokenAccounts := Empty());
      draft := draft.(targetAsset := Empty());
      draft := draft.(targetParsedTokenAccount := None);
      draft := draft.(isSourceAssetWormholeWrapped := None);
      draft := draft.(targetAddressHex := Some(targetAddress));
      draft := draft.(originChain := Some(origin));
      draft := draft.(originAsset := Some(originAddress));
      draft := draft.(amount := recovered);
      draft := draft.(activeStep := 3);
      draft := draft.(isRecovery := true);
      state := draft;
    }

    method SetSourceParsedTokenAccount(account: Option<Account>)
      modifies this`state
      ensures state == Reduce(old(state), Action.SetSourceParsedTokenAccount(account))
    {
      var draft := state;
      draft := draft.(sourceParsedTokenAccount := account);
      draft := draft.(targetAsset := Empty());
      draft := draft.(targetParsedTokenAccount := None);
      draft := draft.(targetAddressHex := None);
      draft := draft.(isSourceAssetWormholeWrapped := None);
      draft := draft.(originChain := None);
      draft := draft.(originAsset := None);
      state := draft;
    }

    /** The reducers that touch the source's token list or its origin. */
    method ReduceSource(a: Action)
      requires a.SetSourceWormholeWrappedInfo? || a.SetSourceParsedTokenAccounts? || a.FetchSourceParsedTokenAccounts?
               || a.ErrorSourceParsedTokenAccounts? || a.ReceiveSourceParsedTokenAccounts? || a.SetSourceWalletAddress?
      modifies this`state
      ensures state == Reduce(old(state), a)
    {
      var draft := state;
      match a {
        case SetSourceWormholeWrappedInfo(isWrapped, chainId, assetAddress) =>
          draft := draft.(isSourceAssetWormholeWrapped := Some(isWrapped));
          draft := draft.(originChain := Some(chainId));
          draft := draft.(originAsset := Some(assetAddress));
        case SetSourceWalletAddress(address) => draft := draft.(sourceWalletAddress := address);
        case SetSourceParsedTokenAccounts(accounts, at) =>
          if accounts.Some? {
            draft := draft.(sourceParsedTokenAccounts := Received(accounts.value, at));
          } else {
            draft := draft.(sourceParsedTokenAccounts := Empty());
          }
        case FetchSourceParsedTokenAccounts => draft := draft.(sourceParsedTokenAccounts := Fetching());
        case ErrorSourceParsedTokenAccounts(error) =>
          draft := draft.(sourceParsedTokenAccounts := Failed(OrUnknown(error)));
        case ReceiveSourceParsedTokenAccounts(accounts, at) =>
          draft := draft.(sourceParsedTokenAccounts := Received(accounts, at));
      }
      state := draft;
    }

    /** The reducers of the steps and of the target. */
    method ReduceTarget(a: Action)
      requires a.IncrementStep? || a.DecrementStep? || a.SetStep? || a.SetAmount? || a.SetTargetAddressHex?
               || a.SetTargetAsset? || a.SetTargetParsedTokenAccount?
      modifies this`state
      ensures state == Reduce(old(state), a)
    {
      var draft := state;
      match a {
        case IncrementStep =>
          if draft.activeStep < LAST_STEP {
            draft := draft.(activeStep := draft.activeStep + 1);
          }
        case DecrementStep =>
          if draft.activeStep > 0 {
            draft := draft.(activeStep := draft.activeStep - 1);
          }
        case SetStep(step) => draft := draft.(activeStep := step);
        case SetAmount(amount) => draft := draft.(amount := amount);
        case SetTargetAddressHex(address) => draft := draft.(targetAddressHex := address);
        case SetTargetAsset(asset) =>
          draft := draft.(targetAsset := asset);
          draft := draft.(targetParsedTokenAccount := None);
        case SetTargetParsedTokenAccount(account) => draft := draft.(targetParsedTokenAccount := account);
      }
      state := draft;
    }

    method Reset()
      modifies this`state
      ensures state == Reduce(old(state), Action.Reset)
    {
      state := INITIAL.(sourceChain := state.sourceChain, targetChain := state.targetChain);
    }

    /** The reducers of the transfer's results. */
    method ReduceResult(a: Action)
      requires a.SetTransferTx? || a.SetSignedVAAHex? || a.SetRedeemTx?
      modifies this`state
      ensures state == Reduce(old(state), a)
    {
      var draft := state;
      match a {
        case SetTransferTx(tx) => draft := draft.(transferTx := Some(tx));
        case SetSignedVAAHex(vaa) =>
          draft := draft.(signedVAAHex := Some(vaa));
          draft := draft.(isSending := false);
          draft := draft.(activeStep := 3);
        case SetRedeemTx(tx) =>
          draft := draft.(redeemTx := Some(tx));
          draft := draft.(isRedeeming := false);
      }
      state := draft;
    }

    /** The reducers of its progress. */
    method ReduceProgress(a: Action)
      requires a.SetIsSending? || a.SetIsRedeeming? || a.SetIsApproving?
      modifies this`state
      ensures state == Reduce(old(state), a)
    {
      var draft := state;
      match a {
        case SetIsSending(flag) => draft := draft.(isSending := flag);
        case SetIsRedeeming(flag) => draft := draft.(isRedeeming := flag);
        case SetIsApproving(flag) => draft := draft.(isApproving := flag);
      }
      state := draft;
    }

    /** Whatever has been dispatched, the state is safe to show: the two chains differ, the
        step is in range and a recovery has its signed message. The state is what the whole
        history makes it, so all that is proved of `After` holds of it. */
    method Dispatch(a: Action)
      requires Valid()
      modifies this
      ensures Valid() && history == old(history) + [a]
      ensures Inv(state)
    {
      match a {
        case SetSourceChain(chain) => SetSourceChain(chain);
        case SetTargetChain(chain) => SetTargetChain(chain);
        case SetRecoveryVaa(vaa, target, targetAddress, origin, originAddress, recovered) =>
          SetRecoveryVaa(vaa, target, targetAddress, origin, originAddress, recovered);
        case SetSourceParsedTokenAccount(account) => SetSourceParsedTokenAccount(account);
        case SetSourceWormholeWrappedInfo(_, _, _) => ReduceSource(a);
        case SetSourceWalletAddress(_) => ReduceSource(a);
        case SetSourceParsedTokenAccounts(_, _) => ReduceSource(a);
        case FetchSourceParsedTokenAccounts => ReduceSource(a);
        case ErrorSourceParsedTokenAccounts(_) => ReduceSource(a);
        case ReceiveSourceParsedTokenAccounts(_, _) => ReduceSource(a);
        case SetTransferTx(_) => ReduceResult(a);
        case SetSignedVAAHex(_) => ReduceResult(a);
        case SetIsSending(_) => ReduceProgress(a);
        case SetIsRedeeming(_) => ReduceProgress(a);
        case SetRedeemTx(_) => ReduceResult(a);
        case SetIsApproving(_) => ReduceProgress(a);
        case Reset => Reset();
        case _ => ReduceTarget(a);
      }
      assert (history + [a])[..|history|] == history;
      history := history + [a];
      AlwaysSafe(history);
    }
  }

  // ----- the target selector -----

  datatype TargetError =
    | InSource(error: string)
    | SelectTarget
    | SameChains
    | Unregistered
    | NoTargetAccount

  /** The target selector. The source error, which needs number parsing, is an input. */
  function TargetErrorOf(s: State, sourceError: Option<string>, isEvm: ChainId -> bool, zeroAddress: string): Option<TargetError> {
    var asset := if s.targetAsset.data.Some? then s.targetAsset.data.value.address else None;
    if sourceError.Some? then Some(InSource(sourceError.value))
    else if s.targetChain == 0 then Some(SelectTarget)
    else if s.sourceChain == s.targetChain then Some(SameChains)
    else if asset.None? || asset.value == "" then Some(Unregistered)
    else if isEvm(s.targetChain) && asset.value == zeroAddress then Some(Unregistered)
    else if s.targetAddressHex.None? || s.targetAddressHex.value == "" then Some(NoTargetAccount)
    else None
  }

  /** The "different target and source" message can never be shown. */
  lemma SameChainsUnreachable(run: seq<Action>, sourceError: Option<string>, isEvm: ChainId -> bool, zeroAddress: string)
    ensures TargetErrorOf(After(run), sourceError, isEvm, zeroAddress) != Some(SameChains)
  {
    AlwaysSafe(run);
  }

  // ----- derived fields are never stale -----

  /** Some action of the run set the field, and from then on the field has been defined and
      what it depends on has not changed. */
  ghost predicate FreshSince<T(!new)>(run: seq<Action>, held: State -> bool, sets: Action -> bool, watch: State -> T) {
    exists i: nat :: i < |run| && sets(run[i]) && HeldFrom(run, i, held, watch, watch(After(run)))
  }

  /** Action `a` leaves the field undefined, sets it, or keeps it together with what it
      depends on. */
  ghost predicate Keeps<T(!new)>(held: State -> bool, sets: Action -> bool, watch: State -> T, s: State, a: Action) {
    held(Reduce(s, a)) ==> sets(a) || (held(s) && watch(Reduce(s, a)) == watch(s))
  }

  ghost predicate NeverStale<T(!new)>(held: State -> bool, sets: Action -> bool, watch: State -> T) {
    !held(INITIAL) && forall s: State, a: Action {:trigger Keeps(held, sets, watch, s, a)} :: Keeps(held, sets, watch, s, a)
  }

  /** From index `i` on, the field has been defined and what it depends on has been `w`. */
  ghost predicate HeldFrom<T(!new)>(run: seq<Action>, i: nat, held: State -> bool, watch: State -> T, w: T) {
    forall j :: i < j <= |run| ==> held(After(run[..j])) && watch(After(run[..j])) == w
  }

  lemma {:induction false} StaysFresh<T(!new)>(run: seq<Action>, held: State -> bool, sets: Action -> bool, watch: State -> T)
    requires NeverStale(held, sets, watch) && held(After(run))
    ensures FreshSince(run, held, sets, watch)
  {
    var w := watch(After(run));
    if run != [] {
      var n := |run| - 1;
      var s := After(run[..n]);
      assert Keeps(held, sets, watch, s, run[n]);
      assert run[..|run|] == run;
      if sets(run[n]) {
        assert HeldFrom(run, n, held, watch, w);
      } else {
        StaysFresh(run[..n], held, sets, watch);
        var i: nat :| i < n && sets(run[..n][i]) && HeldFrom(run[..n], i, held, watch, watch(s));
        ExtendHeld(run, i, held, watch, w);
        assert sets(run[i]);
      }
    }
  }

  lemma ExtendHeld<T(!new)>(run: seq<Action>, i: nat, held: State -> bool, watch: State -> T, w: T)
    requires run != [] && HeldFrom(run[..|run| - 1], i, held, watch, w) && held(After(run)) && watch(After(run)) == w
    ensures HeldFrom(run, i, held, watch, w)
  {
    var n := |run| - 1;
    forall j | i < j <= |run| ensures held(After(run[..j])) && watch(After(run[..j])) == w {
      if j <= n {
        assert run[..n][..j] == run[..j];
      } else {
        assert run[..j] == run;
      }
    }
  }

  // The derived fields: when they are defined, which actions set them, and what they
  // depend on.

  predicate HasSourceAccount(s: State) { s.sourceParsedTokenAccount.Some? }
  predicate SetsSourceAccount(a: Action) { a.SetSourceParsedTokenAccount? && a.account.Some? }

  predicate HasSourceAccounts(s: State) { s.sourceParsedTokenAccounts.data.Some? }
  predicate SetsSourceAccounts(a: Action) {
    (a.SetSourceParsedTokenAccounts? && a.accounts.Some?) || a.ReceiveSourceParsedTokenAccounts?
  }

  function SourceChainOf(s: State): ChainId { s.sourceChain }

  predicate HasOrigin(s: State) { s.originChain.Some? || s.originAsset.Some? }
  predicate SetsOrigin(a: Action) { a.SetSourceWormholeWrappedInfo? || a.SetRecoveryVaa? }
  function SourceOf(s: State): (ChainId, Option<Account>) { (s.sourceChain, s.sourceParsedTokenAccount) }

  predicate HasTargetAsset(s: State) { s.targetAsset.data.Some? }
  predicate SetsTargetAsset(a: Action) { a.SetTargetAsset? }

  predicate HasAddress(s: State) { s.targetAddressHex.Some? }
  predicate SetsAddress(a: Action) { (a.SetTargetAddressHex? && a.address.Some?) || a.SetRecoveryVaa? }
  function RouteOf(s: State): (ChainId, Option<Account>, ChainId) {
    (s.sourceChain, s.sourceParsedTokenAccount, s.targetChain)
  }

  predicate HasTargetAccount(s: State) { s.targetParsedTokenAccount.Some? }
  predicate SetsTargetAccount(a: Action) { a.SetTargetParsedTokenAccount? && a.account.Some? }
  function TargetOf(s: State): (ChainId, Option<Account>, ChainId, Wrapper<ForeignAsset>) {
    (s.sourceChain, s.sourceParsedTokenAccount, s.targetChain, s.targetAsset)
  }

  /** A chosen source token belongs to the source chain still selected. */
  lemma SourceAccountFresh(run: seq<Action>)
    requires HasSourceAccount(After(run))
    ensures FreshSince(run, HasSourceAccount, SetsSourceAccount, SourceChainOf)
  {
    forall s: State, a: Action ensures Keeps(HasSourceAccount, SetsSourceAccount, SourceChainOf, s, a) {
      SourceAccountKept(s, a);
    }
    StaysFresh(run, HasSourceAccount, SetsSourceAccount, SourceChainOf);
  }

  lemma SourceAccountKept(s: State, a: Action)
    ensures HasSourceAccount(Reduce(s, a)) ==>
              SetsSourceAccount(a) || (HasSourceAccount(s) && SourceChainOf(Reduce(s, a)) == SourceChainOf(s))
  {
  }

  /** A fetched list of source tokens belongs to the source chain still selected. */
  lemma SourceAccountsFresh(run: seq<Action>)
    requires HasSourceAccounts(After(run))
    ensures FreshSince(run, HasSourceAccounts, SetsSourceAccounts, SourceChainOf)
  {
    forall s: State, a: Action ensures Keeps(HasSourceAccounts, SetsSourceAccounts, SourceChainOf, s, a) {
      SourceAccountsKept(s, a);
    }
    StaysFresh(run, HasSourceAccounts, SetsSourceAccounts, SourceChainOf);
  }

  lemma SourceAccountsKept(s: State, a: Action)
    ensures HasSourceAccounts(Reduce(s, a)) ==>
              SetsSourceAccounts(a) || (HasSourceAccounts(s) && SourceChainOf(Reduce(s, a)) == SourceChainOf(s))
  {
  }

  /** Defined origin fields were set for the source chain and token still selected. */
  lemma OriginFresh(run: seq<Action>)
    requires HasOrigin(After(run))
    ensures FreshSince(run, HasOrigin, SetsOrigin, SourceOf)
  {
    forall s: State, a: Action ensures Keeps(HasOrigin, SetsOrigin, SourceOf, s, a) {
      OriginKept(s, a);
    }
    StaysFresh(run, HasOrigin, SetsOrigin, SourceOf);
  }

  lemma OriginKept(s: State, a: Action)
    ensures HasOrigin(Reduce(s, a)) ==> SetsOrigin(a) || (HasOrigin(s) && SourceOf(Reduce(s, a)) == SourceOf(s))
  {
  }

  /** A target asset was found for the source chain, source token and target chain still
      selected. */
  lemma TargetAssetFresh(run: seq<Action>)
    requires HasTargetAsset(After(run))
    ensures FreshSince(run, HasTargetAsset, SetsTargetAsset, RouteOf)
  {
    forall s: State, a: Action ensures Keeps(HasTargetAsset, SetsTargetAsset, RouteOf, s, a) {
      TargetAssetKept(s, a);
    }
    StaysFresh(run, HasTargetAsset, SetsTargetAsset, RouteOf);
  }

  lemma TargetAssetKept(s: State, a: Action)
    ensures HasTargetAsset(Reduce(s, a)) ==>
              SetsTargetAsset(a) || (HasTargetAsset(s) && RouteOf(Reduce(s, a)) == RouteOf(s))
  {
  }

  /** A defined target address was set for the source chain, source token and target chain
      still selected. */
  lemma TargetAddressFresh(run: seq<Action>)
    requires HasAddress(After(run))
    ensures FreshSince(run, HasAddress, SetsAddress, RouteOf)
  {
    forall s: State, a: Action ensures Keeps(HasAddress, SetsAddress, RouteOf, s, a) {
      AddressKept(s, a);
    }
    StaysFresh(run, HasAddress, SetsAddress, RouteOf);
  }

  lemma AddressKept(s: State, a: Action)
    ensures HasAddress(Reduce(s, a)) ==> SetsAddress(a) || (HasAddress(s) && RouteOf(Reduce(s, a)) == RouteOf(s))
  {
  }

  /** A defined target token account was set for the route and target asset still in place. */
  lemma TargetAccountFresh(run: seq<Action>)
    requires HasTargetAccount(After(run))
    ensures FreshSince(run, HasTargetAccount, SetsTargetAccount, TargetOf)
  {
    forall s: State, a: Action ensures Keeps(HasTargetAccount, SetsTargetAccount, TargetOf, s, a) {
      TargetAccountKept(s, a);
    }
    StaysFresh(run, HasTargetAccount, SetsTargetAccount, TargetOf);
  }

  lemma TargetAccountKept(s: State, a: Action)
    ensures HasTargetAccount(Reduce(s, a)) ==>
              SetsTargetAccount(a) || (HasTargetAccount(s) && TargetOf(Reduce(s, a)) == TargetOf(s))
  {
  }
}
