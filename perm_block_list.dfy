/**
 * The permission keeper's two block lists: blocked accounts and denied
 * contracts. Each is a set of store entries whose value is an encoded
 * BoolValue; only the presence of an entry matters when it is read back.
 */
module Perm {
  import opened Wrappers
  import opened KeyOrder

  /** The errors the block-list operations return. */
  datatype PermError =
    | ErrBlockAdminAccount
    | ErrAlreadyBlockedAccount
    | ErrUnknownBlockedAccount

  /** An account address: raw bytes, of whatever length the account module uses. */
  type AccAddress = Bytes

  const AddressLength := 20

  /** A contract address: exactly 20 bytes. */
  type Address = a: Bytes | |a| == AddressLength witness seq(20, _ => 0)

  /**
   * Normalises raw bytes to a contract address: keeps the last 20 bytes when
   * there are more, and pads with zero bytes on the left when there are fewer.
   */
  function BytesToAddress(b: Bytes): (r: Address)
    ensures |b| >= AddressLength ==> r == b[|b| - AddressLength..]
    ensures |b| <= AddressLength ==> r[AddressLength - |b|..] == b
    ensures forall i :: 0 <= i < AddressLength - |b| ==> r[i] == 0
  {
    if |b| >= AddressLength then b[|b| - AddressLength..]
    else seq(AddressLength - |b|, _ => 0) + b
  }

  /** An address's own bytes normalise back to the same address. */
  lemma BytesOfAddressRoundTrip(a: Address)
    ensures BytesToAddress(a) == a
  {
  }

  class BlockList {
    /** The role keeper's admin test, outside this model. */
    const isAdmin: AccAddress -> bool
    /** Hex-string decoding of a contract address, outside this model. */
    const hexToAddress: string -> Address

    /** Entries under the blocked-account key: address to stored BoolValue. */
    var blocked: map<AccAddress, bool>
    /** Entries under the contract deny-list key: address to stored BoolValue. */
    var denied: map<Address, bool>

    constructor (isAdmin: AccAddress -> bool, hexToAddress: string -> Address)
      ensures this.isAdmin == isAdmin && this.hexToAddress == hexToAddress
      ensures blocked == map[] && denied == map[]
    {
      this.isAdmin := isAdmin;
      this.hexToAddress := hexToAddress;
      blocked := map[];
      denied := map[];
    }

    /** Blocks an account unless it is an admin or is blocked already. */
    method Block(address: AccAddress) returns (err: Option<PermError>)
      modifies this
      ensures denied == old(denied)
      ensures isAdmin(address) ==>
        err == Some(ErrBlockAdminAccount) && blocked == old(blocked)
      ensures !isAdmin(address) && address in old(blocked) ==>
        err == Some(ErrAlreadyBlockedAccount) && blocked == old(blocked)
      ensures !isAdmin(address) && address !in old(blocked) ==>
        err == None && blocked == old(blocked)[address := true]
    {
      if isAdmin(address) {
        return Some(ErrBlockAdminAccount);
      }
      if GetBlockAccount(address) {
        return Some(ErrAlreadyBlockedAccount);
      }
      SetBlockAccount(address);
      return None;
    }

    /** Unblocks an account that is blocked. */
    method Unblock(address: AccAddress) returns (err: Option<PermError>)
      modifies this
      ensures denied == old(denied)
      ensures address !in old(blocked) ==>
        err == Some(ErrUnknownBlockedAccount) && blocked == old(blocked)
      ensures address in old(blocked) ==>
        err == None && blocked == old(blocked) - {address}
    {
      if !GetBlockAccount(address) {
        return Some(ErrUnknownBlockedAccount);
      }
      DeleteBlockAccount(address);
      return None;
    }

    method SetBlockAccount(address: AccAddress)
      modifies this
      ensures blocked == old(blocked)[address := true] && denied == old(denied)
    {
      blocked := blocked[address := true];
    }

    /** Reports whether an entry exists; the decoded value is not consulted. */
    predicate GetBlockAccount(address: AccAddress): (r: bool)
      reads this
      ensures r <==> address in blocked
      ensures address in blocked && !blocked[address] ==> r
    {
      address in blocked
    }

    method DeleteBlockAccount(address: AccAddress)
      modifies this
      ensures blocked == old(blocked) - {address} && denied == old(denied)
    {
      blocked := blocked - {address};
    }

    /** Every blocked account, each once, in ascending key order. */
    method GetAllBlockAccounts() returns (accounts: seq<AccAddress>)
      ensures Ascending(accounts)
      ensures forall a :: a in accounts <==> a in blocked
      ensures forall i, j :: 0 <= i < j < |accounts| ==> accounts[i] != accounts[j]
    {
      accounts := SortedKeys(blocked.Keys);
    }

    /** Denies a contract unless its normalised address is denied already. */
    method BlockContract(contractAddress: string) returns (err: Option<PermError>)
      modifies this
      ensures blocked == old(blocked)
      ensures hexToAddress(contractAddress) in old(denied) ==>
        err == Some(ErrAlreadyBlockedAccount) && denied == old(denied)
      ensures hexToAddress(contractAddress) !in old(denied) ==>
        err == None && denied == old(denied)[hexToAddress(contractAddress) := true]
    {
      var contractAddr := hexToAddress(contractAddress);
      if GetBlockContract(contractAddr) {
        return Some(ErrAlreadyBlockedAccount);
      }
      SetContractDenyList(contractAddr);
      return None;
    }

    /** Lifts the denial of a contract whose normalised address is denied. */
    method UnblockContract(contractAddress: string) returns (err: Option<PermError>)
      modifies this
      ensures blocked == old(blocked)
      ensures hexToAddress(contractAddress) !in old(denied) ==>
        err == Some(ErrUnknownBlockedAccount) && denied == old(denied)
      ensures hexToAddress(contractAddress) in old(denied) ==>
        err == None && denied == old(denied) - {hexToAddress(contractAddress)}
    {
      var address := hexToAddress(contractAddress);
      if !GetBlockContract(address) {
        return Some(ErrUnknownBlockedAccount);
      }
      DeleteContractDenyList(address);
      return None;
    }

    /** Every denied contract, each once, in ascending key order. */
    method GetContractDenyList() returns (contracts: seq<Address>)
      ensures Ascending(contracts)
      ensures forall a :: a in contracts <==> a in denied
      ensures forall i, j :: 0 <= i < j < |contracts| ==> contracts[i] != contracts[j]
    {
      var keys := SortedKeys(denied.Keys);
      contracts := [];
      for i := 0 to |keys|
        invariant contracts == keys[..i]
      {
        assert keys[i] in denied;
        BytesOfAddressRoundTrip(keys[i]);
        contracts := contracts + [BytesToAddress(keys[i])];
      }
      assert keys[..|keys|] == keys;
    }

    /**
     * Reports whether the normalised form of `address` has an entry; the
     * decoded value is not consulted.
     */
    predicate GetBlockContract(address: Bytes): (r: bool)
      reads this
      ensures |address| == AddressLength ==> (r <==> address in denied)
      ensures |address| > AddressLength ==>
        (r <==> address[|address| - AddressLength..] in denied)
      ensures |address| < AddressLength ==>
        (r <==> seq(AddressLength - |address|, _ => 0) + address in denied)
      ensures r <==> BytesToAddress(address) in denied
    {
      BytesToAddress(address) in denied
    }

    method DeleteContractDenyList(address: Address)
      modifies this
      ensures denied == old(denied) - {address} && blocked == old(blocked)
    {
      denied := denied - {address};
    }

    method SetContractDenyList(address: Address)
      modifies this
      ensures denied == old(denied)[address := true] && blocked == old(blocked)
    {
      denied := denied[address := true];
    }
  }

  /** Blocking an unblocked non-admin account and unblocking it restores both lists. */
  method BlockThenUnblock(k: BlockList, address: AccAddress)
    requires !k.isAdmin(address) && address !in k.blocked
    modifies k
    ensures k.blocked == old(k.blocked) && k.denied == old(k.denied)
  {
    var e1 := k.Block(address);
    assert e1 == None && k.GetBlockAccount(address);
    var e2 := k.Unblock(address);
    assert e2 == None && !k.GetBlockAccount(address);
  }

  /** Denying an undenied contract and lifting the denial restores both lists. */
  method BlockThenUnblockContract(k: BlockList, contractAddress: string)
    requires k.hexToAddress(contractAddress) !in k.denied
    modifies k
    ensures k.blocked == old(k.blocked) && k.denied == old(k.denied)
  {
    var e1 := k.BlockContract(contractAddress);
    assert e1 == None;
    var e2 := k.UnblockContract(contractAddress);
    assert e2 == None;
  }
}
