/** The wallet side of web3.js: the Web3Manager object with its connection
    state (`account`, `isConnected`, `chainId`), the network check and
    switch against BSC Testnet, the token history kept in local storage,
    and the simulated token creation. Everything the browser or the wallet
    would answer (the provider's replies, `confirm`, `Math.random`, the
    clock, whether a storage write succeeds) is an input. */
module Web3 {
  import opened JsRuntime
  import opened TokenAddress

  /** A token as `saveTokenToHistory` stores it: the token data spread out,
      then the predicted address, the transaction hash, the creation time
      and the creator's account. */
  datatype TokenRecord = TokenRecord(
    name: JsString,
    symbol: JsString,
    totalSupply: Option<int>,
    salt: JsString,
    desiredPrefix: JsString,
    address: JsString,
    txHash: JsString,
    createdAt: JsString,
    creator: JsString)

  /** What a successful `createToken` resolves to. */
  datatype Created = Created(address: JsString, txHash: JsString)

  /** The provider's answer to one request: a value, or an error with a
      numeric code. The unit type stands for a reply whose value is
      ignored. */
  datatype RpcError = RpcError(code: int)
  datatype Reply<T> = Resolved(value: T) | Thrown(error: RpcError)

  /** The provider requests `checkNetwork` and `switchNetwork` issue. */
  datatype RpcMethod =
    | EthChainId
    | WalletSwitchEthereumChain
    | WalletAddEthereumChain

  /** The requests `switchNetwork` made, in order, and the error it throws,
      if any. */
  datatype SwitchOutcome = SwitchOutcome(calls: seq<RpcMethod>, thrown: Option<RpcError>)

  /** The local-storage key of the token history. */
  const UserTokensKey: JsString := Units("userTokens")
  /** BSC Testnet, chain 97. */
  const TargetChainId: JsString := Units("0x61")
  /** The error code a wallet answers when it does not know the chain. */
  const UnrecognizedChainCode: int := 4902
  const AdminAddresses: seq<JsString> := [Units("0x742d35Cc6629C58b26F8d7a1E5b3E7d9D2A6C7d8")]

  // ---------------------------------------------------------------------
  // Network switching

  /** `switchNetwork()`: ask the wallet to switch to the target chain; only
      when that fails with code 4902 ask it to add the chain, and rethrow
      whatever the last request threw. */
  function SwitchNetwork(switchReply: Reply<()>, addReply: Reply<()>): (s: SwitchOutcome)
    ensures |s.calls| >= 1 && s.calls[0] == WalletSwitchEthereumChain
    ensures WalletAddEthereumChain in s.calls
            <==> switchReply.Thrown? && switchReply.error.code == UnrecognizedChainCode
    ensures switchReply.Resolved? ==> s.thrown == None
    ensures switchReply.Thrown? && switchReply.error.code != UnrecognizedChainCode
            ==> s.thrown == Some(switchReply.error)
    ensures switchReply.Thrown? && switchReply.error.code == UnrecognizedChainCode
            ==> s.thrown == (if addReply.Thrown? then Some(addReply.error) else None)
  {
    match switchReply
    case Resolved(_) => SwitchOutcome([WalletSwitchEthereumChain], None)
    case Thrown(e) =>
      if e.code == UnrecognizedChainCode then
        var thrown := if addReply.Thrown? then Some(addReply.error) else None;
        SwitchOutcome([WalletSwitchEthereumChain, WalletAddEthereumChain], thrown)
      else
        SwitchOutcome([WalletSwitchEthereumChain], Some(e))
  }

  // ---------------------------------------------------------------------
  // The token history

  /** `getUserTokens()` over a storage snapshot: the list under the key, or
      the empty list when the key is unset. */
  function Tokens(storage: map<JsString, seq<TokenRecord>>): (tokens: seq<TokenRecord>)
    ensures UserTokensKey in storage ==> tokens == storage[UserTokensKey]
    ensures UserTokensKey !in storage ==> tokens == []
  {
    if UserTokensKey in storage then storage[UserTokensKey] else []
  }

  /** The storage after `saveTokenToHistory(r)` has written. */
  function Saved(storage: map<JsString, seq<TokenRecord>>, r: TokenRecord): (after: map<JsString, seq<TokenRecord>>)
    ensures after.Keys == storage.Keys + {UserTokensKey}
    ensures after[UserTokensKey] == Tokens(storage) + [r]
  {
    storage[UserTokensKey := Tokens(storage) + [r]]
  }

  /** Saving appends at the end: the earlier entries stay where they were,
      the new one is last, nothing is removed or merged, and no other key
      changes. */
  lemma SavedAppends(storage: map<JsString, seq<TokenRecord>>, r: TokenRecord)
    ensures Tokens(Saved(storage, r)) == Tokens(storage) + [r]
    ensures |Tokens(Saved(storage, r))| == |Tokens(storage)| + 1
    ensures Tokens(Saved(storage, r))[|Tokens(storage)|] == r
    ensures forall k :: k in storage && k != UserTokensKey ==> k in Saved(storage, r) && Saved(storage, r)[k] == storage[k]
  {
  }

  /** The history never deduplicates: saving a record already present
      still adds one more copy of it. */
  lemma SavedKeepsDuplicates(storage: map<JsString, seq<TokenRecord>>, r: TokenRecord)
    ensures multiset(Tokens(Saved(storage, r)))[r] == multiset(Tokens(storage))[r] + 1
  {
    assert Tokens(Saved(storage, r)) == Tokens(storage) + [r];
  }

  /** Saves only ever extend the history: after any sequence of saves the
      old list is a prefix of the new one. */
  function SavedAll(storage: map<JsString, seq<TokenRecord>>, rs: seq<TokenRecord>): map<JsString, seq<TokenRecord>>
    decreases |rs|
  {
    if rs == [] then storage else SavedAll(Saved(storage, rs[0]), rs[1..])
  }

  lemma {:induction false} SavedAllAppends(storage: map<JsString, seq<TokenRecord>>, rs: seq<TokenRecord>)
    ensures Tokens(SavedAll(storage, rs)) == Tokens(storage) + rs
    ensures UserTokensKey !in storage ==> Tokens(SavedAll(storage, rs)) == rs
    decreases |rs|
  {
    if rs != [] {
      var next := Saved(storage, rs[0]);
      assert SavedAll(storage, rs) == SavedAll(next, rs[1..]);
      SavedAllAppends(next, rs[1..]);
      SavedAppends(storage, rs[0]);
      assert Tokens(next) + rs[1..] == Tokens(storage) + [rs[0]] + rs[1..];
      assert [rs[0]] + rs[1..] == rs;
      assert Tokens(storage) + [rs[0]] + rs[1..] == Tokens(storage) + rs;
    }
  }

  // ---------------------------------------------------------------------
  // The creation workflow, as a function of its inputs

  /** The outcome of one `createToken` call: what it returns and the record
      it appends, if any. */
  datatype Creation = Creation(result: Option<Created>, record: Option<TokenRecord>)

  /** What `createToken(data)` decides, given whether the wallet is
      connected and to which account, the random digits `generateSalt`
      would draw, the user's answer to `confirm`, the random digits of the
      simulated transaction hash, the clock, and whether the storage write
      succeeds (a failing write lands in the catch block, which returns
      null). */
  function CreateTokenOutcome(
    connected: bool, account: Option<JsString>, data: TokenData,
    saltEntropy: seq<Nibble>, confirmed: bool, txEntropy: seq<Nibble>,
    createdAt: JsString, writable: bool): (c: Creation)
    requires connected ==> account.Some?
    requires |saltEntropy| == 64 && |txEntropy| == 64
    ensures c.result.Some? <==> connected && confirmed && writable
    ensures c.record.Some? <==> c.result.Some?
    ensures c.result.Some? ==>
      var rec := c.record.value;
      && rec.address == c.result.value.address
      && rec.txHash == c.result.value.txHash
      && rec.creator == account.value
      && rec.salt == SaltUsed(data, saltEntropy)
      && rec.address == DeriveAddress(data.name, data.symbol, rec.salt)
      && |rec.address| == 42
      && rec.txHash == HexWord(txEntropy)
      && rec.name == data.name && rec.symbol == data.symbol
      && rec.totalSupply == data.totalSupply && rec.desiredPrefix == data.desiredPrefix
      && rec.createdAt == createdAt
  {
    if !connected || !confirmed || !writable then Creation(None, None)
    else
      var filled := data.(salt := SaltUsed(data, saltEntropy));
      var predicted := ComputeTokenAddress(filled, saltEntropy);
      var txHash := HexWord(txEntropy);
      AddressShape(filled.name, filled.symbol, filled.salt);
      var rec := TokenRecord(filled.name, filled.symbol, filled.totalSupply, filled.salt,
                             filled.desiredPrefix, predicted, txHash, createdAt, account.value);
      Creation(Some(Created(predicted, txHash)), Some(rec))
  }

  /** Running the workflow twice on the same token appends two records with
      the same address: the history does not deduplicate. */
  lemma RepeatedCreationAppendsTwice(
    storage: map<JsString, seq<TokenRecord>>, account: JsString, data: TokenData,
    saltEntropy: seq<Nibble>, tx1: seq<Nibble>, tx2: seq<Nibble>, at1: JsString, at2: JsString)
    requires data.salt != []
    requires |saltEntropy| == 64 && |tx1| == 64 && |tx2| == 64
    ensures
      var c1 := CreateTokenOutcome(true, Some(account), data, saltEntropy, true, tx1, at1, true);
      var c2 := CreateTokenOutcome(true, Some(account), data, saltEntropy, true, tx2, at2, true);
      var after := Saved(Saved(storage, c1.record.value), c2.record.value);
      && Tokens(after) == Tokens(storage) + [c1.record.value, c2.record.value]
      && c1.record.value.address == c2.record.value.address
  {
    var c1 := CreateTokenOutcome(true, Some(account), data, saltEntropy, true, tx1, at1, true);
    var c2 := CreateTokenOutcome(true, Some(account), data, saltEntropy, true, tx2, at2, true);
    SavedAppends(storage, c1.record.value);
    SavedAppends(Saved(storage, c1.record.value), c2.record.value);
  }

  /** The account an `accountsChanged` list leaves connected: its first
      entry, or none for the empty list. */
  function AccountAfter(accounts: seq<JsString>): (a: Option<JsString>)
    ensures a.Some? <==> |accounts| > 0
    ensures a.Some? ==> a.value == accounts[0]
  {
    if |accounts| == 0 then None else Some(accounts[0])
  }

  // ---------------------------------------------------------------------
  // The manager

  class Web3Manager {
    /** `window.ethereum` was present, so `provider` is not null. */
    const hasProvider: bool
    var account: Option<JsString>
    var isConnected: bool
    var chainId: Option<JsString>
    /** The local-storage entries this object reads and writes, decoded. */
    var storage: map<JsString, seq<TokenRecord>>

    /** Connected exactly when an account is known. */
    ghost predicate Valid()
      reads this
    {
      isConnected <==> account.Some?
    }

    /** `new Web3Manager()`: the fields start empty, then `init()` asks an
        available provider for the accounts it already exposes and, when
        there are some, handles them as an account change. */
    constructor (providerPresent: bool, saved: map<JsString, seq<TokenRecord>>, existing: Reply<seq<JsString>>)
      ensures Valid()
      ensures hasProvider == providerPresent && storage == saved && chainId == None
      ensures account == (if providerPresent && existing.Resolved? then AccountAfter(existing.value) else None)
    {
      hasProvider := providerPresent;
      account := None;
      isConnected := false;
      chainId := None;
      storage := saved;
      new;
      if providerPresent && existing.Resolved? && |existing.value| > 0 {
        HandleAccountsChanged(existing.value);
      }
    }

    /** `disconnectWallet()`. */
    method DisconnectWallet()
      modifies this`account, this`isConnected
      ensures Valid()
      ensures account == None && !isConnected
    {
      account := None;
      isConnected := false;
    }

    /** The provider's `disconnect` event. */
    method HandleDisconnect()
      modifies this`account, this`isConnected
      ensures Valid()
      ensures account == None && !isConnected
    {
      DisconnectWallet();
    }

    /** `handleAccountsChanged(accounts)`: the first account becomes
        current; an empty list disconnects. */
    method HandleAccountsChanged(accounts: seq<JsString>)
      modifies this`account, this`isConnected
      ensures Valid()
      ensures account == AccountAfter(accounts)
    {
      if |accounts| == 0 {
        DisconnectWallet();
      } else {
        account := Some(accounts[0]);
        isConnected := true;
      }
    }

    /** `checkNetwork()`: read the chain id and, when it is not the target,
        try to switch; a failed switch only shows the wrong-network
        message. A failing `eth_chainId` request is rethrown. */
    method CheckNetwork(chainReply: Reply<JsString>, switchReply: Reply<()>, addReply: Reply<()>)
      returns (calls: seq<RpcMethod>, warned: bool, thrown: Option<RpcError>)
      requires hasProvider
      modifies this`chainId
      ensures chainReply.Thrown? ==>
        calls == [EthChainId] && !warned && thrown == Some(chainReply.error) && chainId == old(chainId)
      ensures chainReply.Resolved? ==> chainId == Some(chainReply.value) && thrown == None
      ensures chainReply.Resolved? && chainReply.value == TargetChainId ==>
        calls == [EthChainId] && !warned
      ensures chainReply.Resolved? && chainReply.value != TargetChainId ==>
        calls == [EthChainId] + SwitchNetwork(switchReply, addReply).calls
        && warned == SwitchNetwork(switchReply, addReply).thrown.Some?
    {
      calls := [EthChainId];
      warned := false;
      thrown := None;
      if chainReply.Thrown? {
        thrown := Some(chainReply.error);
        return;
      }
      chainId := Some(chainReply.value);
      if chainReply.value != TargetChainId {
        var sw := SwitchNetwork(switchReply, addReply);
        calls := calls + sw.calls;
        warned := sw.thrown.Some?;
      }
    }

    /** The provider's `chainChanged` event: record the new id, then check
        the network, which reads the id again. Only `chainId` changes. */
    method HandleChainChanged(newChainId: JsString, chainReply: Reply<JsString>, switchReply: Reply<()>, addReply: Reply<()>)
      returns (warned: bool)
      requires hasProvider
      modifies this`chainId
      ensures chainId == Some(if chainReply.Resolved? then chainReply.value else newChainId)
      ensures warned <==> chainReply.Resolved? && chainReply.value != TargetChainId
                          && SwitchNetwork(switchReply, addReply).thrown.Some?
      ensures unchanged(this`account, this`isConnected, this`storage)
    {
      chainId := Some(newChainId);
      var calls, thrown;
      calls, warned, thrown := CheckNetwork(chainReply, switchReply, addReply);
    }

    /** `connectWallet()`: without a provider, fail; otherwise request the
        accounts, handle them, and check the network. Any thrown error
        makes it answer false. */
    method ConnectWallet(accountsReply: Reply<seq<JsString>>, chainReply: Reply<JsString>,
                         switchReply: Reply<()>, addReply: Reply<()>)
      returns (ok: bool)
      requires Valid()
      modifies this`account, this`isConnected, this`chainId
      ensures Valid()
      ensures ok <==> hasProvider && accountsReply.Resolved? && chainReply.Resolved?
      ensures !hasProvider || accountsReply.Thrown? ==>
        account == old(account) && isConnected == old(isConnected) && chainId == old(chainId)
      ensures hasProvider && accountsReply.Resolved? ==>
        account == AccountAfter(accountsReply.value)
        && chainId == (if chainReply.Resolved? then Some(chainReply.value) else old(chainId))
    {
      if !hasProvider || accountsReply.Thrown? {
        return false;
      }
      HandleAccountsChanged(accountsReply.value);
      var calls, warned, thrown := CheckNetwork(chainReply, switchReply, addReply);
      ok := thrown.None?;
    }

    /** `getUserTokens()`. */
    function GetUserTokens(): (tokens: seq<TokenRecord>)
      reads this
      ensures tokens == Tokens(storage)
      ensures UserTokensKey !in storage ==> tokens == []
    {
      Tokens(storage)
    }

    /** `saveTokenToHistory(record)`: read the list, push, write it back.
        When the write fails (`writable` false) the storage keeps its old
        value and the error propagates. */
    method SaveTokenToHistory(record: TokenRecord, writable: bool) returns (saved: bool)
      modifies this`storage
      ensures saved == writable
      ensures storage == if writable then Saved(old(storage), record) else old(storage)
    {
      var tokens := GetUserTokens();
      tokens := tokens + [record];
      if writable {
        storage := storage[UserTokensKey := tokens];
      }
      saved := writable;
    }

    /** `createToken(tokenData)`: refuse when disconnected; fill in a
        missing salt; predict the address; ask for confirmation; simulate
        the transaction; append one record. */
    method CreateToken(data: TokenData, saltEntropy: seq<Nibble>, confirmed: bool,
                       txEntropy: seq<Nibble>, createdAt: JsString, writable: bool)
      returns (result: Option<Created>)
      requires Valid()
      requires |saltEntropy| == 64 && |txEntropy| == 64
      modifies this`storage
      ensures
        var c := CreateTokenOutcome(isConnected, account, data, saltEntropy, confirmed, txEntropy, createdAt, writable);
        && result == c.result
        && storage == (if c.record.Some? then Saved(old(storage), c.record.value) else old(storage))
    {
      if !isConnected {
        return None;
      }
      var filled := data;
      if filled.salt == [] {
        filled := filled.(salt := HexWord(saltEntropy));
      }
      var predicted := ComputeTokenAddress(filled, saltEntropy);
      if !confirmed {
        return None;
      }
      var txHash := HexWord(txEntropy);
      var record := TokenRecord(filled.name, filled.symbol, filled.totalSupply, filled.salt,
                                filled.desiredPrefix, predicted, txHash, createdAt, account.value);
      var saved := SaveTokenToHistory(record, writable);
      if !saved {
        return None;
      }
      result := Some(Created(predicted, txHash));
    }

    /** `isAdmin()`: the current account is on the admin list. */
    function IsAdmin(): (admin: bool)
      reads this
      ensures admin <==> account.Some? && account.value == AdminAddresses[0]
    {
      account.Some? && account.value != [] && account.value in AdminAddresses
    }
  }
}
