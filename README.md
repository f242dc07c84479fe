# Block lists and the layer-2 NFT custody bridge, in Dafny

This project models two keyed-store state machines of the iritamod chain modules
and proves properties of them.

1. **Permission block lists** (`modules/perm/keeper/block_list.go`). The perm keeper keeps two
   independent lists in its key-value store: blocked accounts and denied contracts. `Block`
   refuses admins and accounts that are blocked already. `Unblock` refuses accounts that are
   not blocked. `BlockContract` and `UnblockContract` do the same for contract addresses
   after normalising them, with no admin check. The two dump functions walk a prefix
   iterator and return every entry in ascending key order. The model is the class
   `Perm.BlockList`. It has one map per list, from address to the stored `BoolValue`.
   Reads report whether an entry is present and never look at the stored value.
2. **Layer-2 NFT custody bridge** (`modules/layer2/keeper/nft_test.go`). The keeper's
   implementation is not part of this model. Its behaviour is taken from the tests, which
   fix the before/after effect of every operation. The class `Layer2.Keeper` holds these
   parts:
   - the class mirror, keyed by class id alone;
   - the token ledger, keyed by (space, class, token);
   - the module's escrow address;
   - an abstract authorisation predicate;
   - a reference to the canonical NFT store `Layer2.NftStore`, which holds one map of class
     owners and one of token owners.

   Deposits move the canonical owner to the escrow address and write the mirror or the
   ledger. Withdrawals move the canonical owner to a recipient and remove the mirror record
   or ledger entry. The bulk create, update and delete operations touch only the ledger,
   and the bulk class update touches only the mirror. Each bulk operation first runs a
   read-only validation pass (`CanCreate`, `CanUpdate`, `CanDelete`, `CanUpdateClasses`),
   then commits the whole batch in a loop. An error leaves the state exactly as it was.
   The module `Layer2Scenarios` replays each test case on the suite's fixture. In that
   fixture, space 1 belongs to accAvata, and class `badKids` is owned by alice and has two
   tokens. Each replay's postcondition is what its test asserts.

The module `KeyOrder` gives the byte order of store keys and models a prefix iterator run to
its end (`SortedKeys`). It repeatedly takes the least remaining key.

Two points where the model follows the tests rather than a looser reading of the bridge:
- **Who may deposit a class.** The test at `nft_test.go:74-93` deposits with `currentOwner` =
  alice after alice has transferred the class to accAvata, with accAvata as sender, and
  expects success. So the model requires the *sender* to be the canonical owner. A class the
  module already holds may be re-deposited only by the owner its mirror records or by an
  account authorised for the space; otherwise anyone could rewrite the recorded owner and
  then withdraw the class.
- **A ledger entry does not imply custody.** `CreateNFTs` (`nft_test.go:5-14`) creates
  ledger entries for tokens that were never deposited, so no such link is claimed.
  `Keeper.ClassCustodyCoherent` says every mirrored class is held by the module. Each class
  operation's postcondition states that it preserves it. The token operations leave the
  mirror and the canonical class owners unchanged, so they preserve it too.

## Model

| member | source | states |
|---|---|---|
| `KeyOrder.SortedKeys` | modules/perm/keeper/block_list.go:63-69 | walking the prefix iterator yields every stored key exactly once, in strictly ascending byte order |
| `KeyOrder.LeastExists` | modules/perm/keeper/block_list.go:66 | every non-empty set of keys has a least key, so the iterator always has a next entry until the set is used up |
| `KeyOrder.LessTotal` | modules/perm/keeper/block_list.go:63 | any two distinct keys are ordered one way or the other |
| `KeyOrder.LessTransitive` | modules/perm/keeper/block_list.go:63 | the key order is transitive |
| `Perm.BytesToAddress` | modules/perm/keeper/block_list.go:110-113 | the normalised contract address is 20 bytes: the last 20 bytes of the input, or the input padded with zero bytes on the left |
| `Perm.BytesOfAddressRoundTrip` | modules/perm/keeper/block_list.go:76-77 | normalising the bytes of a contract address gives back the same address |
| `Perm.BlockList.Block` | modules/perm/keeper/block_list.go:13-22 | an admin fails with ErrBlockAdminAccount and an already-blocked account fails with ErrAlreadyBlockedAccount, both with nothing changed; otherwise the account alone is added; the deny list is never touched |
| `Perm.BlockList.Unblock` | modules/perm/keeper/block_list.go:25-31 | an account that is not blocked fails with ErrUnknownBlockedAccount and nothing changes; otherwise exactly that account is removed; the deny list is never touched |
| `Perm.BlockList.SetBlockAccount` | modules/perm/keeper/block_list.go:33-37 | stores a true entry under the account and changes nothing else |
| `Perm.BlockList.GetBlockAccount` | modules/perm/keeper/block_list.go:40-52 | true exactly when an entry exists, even one whose stored value is false |
| `Perm.BlockList.DeleteBlockAccount` | modules/perm/keeper/block_list.go:54-57 | removes the account's entry and changes nothing else |
| `Perm.BlockList.GetAllBlockAccounts` | modules/perm/keeper/block_list.go:60-72 | returns exactly the blocked accounts, each once, in ascending order |
| `Perm.BlockList.BlockContract` | modules/perm/keeper/block_list.go:75-82 | if the normalised address is already denied, fails with ErrAlreadyBlockedAccount and nothing changes; otherwise adds it, with no admin check; the account list is never touched |
| `Perm.BlockList.UnblockContract` | modules/perm/keeper/block_list.go:85-92 | if the normalised address is not denied, fails with ErrUnknownBlockedAccount and nothing changes; otherwise removes exactly it; the account list is never touched |
| `Perm.BlockList.GetContractDenyList` | modules/perm/keeper/block_list.go:95-107 | returns exactly the denied contract addresses, each once, in ascending order |
| `Perm.BlockList.GetBlockContract` | modules/perm/keeper/block_list.go:110-122 | true exactly when the normalised form of the given bytes has an entry (for 20 bytes, the bytes themselves; for more, their last 20; for fewer, the bytes padded on the left with zeros), whatever its stored value; both directions of the equivalence |
| `Perm.BlockList.DeleteContractDenyList` | modules/perm/keeper/block_list.go:124-127 | removes the contract's entry and changes nothing else |
| `Perm.BlockList.SetContractDenyList` | modules/perm/keeper/block_list.go:129-133 | stores a true entry under the contract and changes nothing else |
| `Perm.BlockThenUnblock` | modules/perm/keeper/block_list.go:13-31 | blocking an unblocked non-admin account and then unblocking it restores both lists exactly |
| `Perm.BlockThenUnblockContract` | modules/perm/keeper/block_list.go:75-92 | denying an undenied contract and then lifting the denial restores both lists exactly |
| `Layer2.NftStore.GetClassOwner` | modules/layer2/keeper/nft_test.go:68-71 | the canonical owner of a class, or NotFound when the class does not exist |
| `Layer2.NftStore.GetNftOwner` | modules/layer2/keeper/nft_test.go:146-149 | the canonical owner of a token, or NotFound when the token does not exist |
| `Layer2.NftStore.TransferClass` | modules/layer2/keeper/nft_test.go:76-77 | moving a class succeeds only from its current owner and changes only that class's owner; a missing class is NotFound and another sender is Unauthorized, with nothing changed |
| `Layer2.NftStore.TransferNft` | modules/layer2/keeper/nft_test.go:146-149 | moving a token succeeds only from its current owner and changes only that token's owner; otherwise NotFound or Unauthorized, with nothing changed |
| `Layer2.Keeper.GetClassForNFT` | modules/layer2/keeper/nft_test.go:62-66 | the mirror record of a class, whose Id is the class id asked for, or NotFound |
| `Layer2.Keeper.GetTokenOwnerForNFT` | modules/layer2/keeper/nft_test.go:10-12 | the ledger owner under (space, class, token), or NotFound when there is no entry |
| `Layer2.Keeper.GetTokenForNFT` | modules/layer2/keeper/nft_test.go:142-144 | returns the same result as GetTokenOwnerForNFT |
| `Layer2.Keeper.HasTokenForNFT` | modules/layer2/keeper/nft_test.go:176-177 | true exactly when GetTokenOwnerForNFT finds an entry |
| `Layer2.Keeper.DepositClassForNFT` | modules/layer2/keeper/nft_test.go:57-93 | on success, the canonical class owner becomes the module address and the mirror becomes {Id: class, BaseUri: uri, Owner: owner}; succeeds when the sender is the canonical owner, even if the owner argument is someone else; a class the module already holds may be re-deposited only by the owner its mirror records or by an account authorised for the space; a missing class is NotFound and any other sender is Unauthorized, with nothing changed; class custody coherence is preserved |
| `Layer2.Keeper.WithdrawClassForNFT` | modules/layer2/keeper/nft_test.go:119-135 | on success the canonical class owner becomes the recipient and the mirror record is removed; an unmirrored class is NotFound, a class the module does not hold is NotCustodied, and an operator that is neither the logical owner nor authorised is Unauthorized, with nothing changed; custody coherence is preserved |
| `Layer2.Keeper.DepositTokenForNFT` | modules/layer2/keeper/nft_test.go:137-150 | on success the ledger records the depositor as owner and the canonical token owner becomes the module address; a missing token is NotFound, a depositor that is not the canonical owner is Unauthorized, and an existing entry is AlreadyExists, with nothing changed |
| `Layer2.Keeper.WithdrawTokenForNFT` | modules/layer2/keeper/nft_test.go:152-182 | on success the canonical token owner becomes the recipient, the ledger entry is deleted and HasTokenForNFT is false; a missing entry is NotFound, a token the module does not hold is NotCustodied, and an unauthorised operator is Unauthorized, with nothing changed |
| `Layer2.Keeper.CanCreate` | modules/layer2/keeper/nft_test.go:5-14 | true exactly when every token of the batch is new to the ledger and to the batch before it |
| `Layer2.Keeper.CanUpdate` | modules/layer2/keeper/nft_test.go:16-32 | true exactly when every token of the batch already has a ledger entry |
| `Layer2.Keeper.CanDelete` | modules/layer2/keeper/nft_test.go:34-54 | true exactly when every id has a ledger entry and is listed once |
| `Layer2.Keeper.CanUpdateClasses` | modules/layer2/keeper/nft_test.go:96-117 | true exactly when every class of the batch has a mirror record |
| `Layer2.Keeper.CreateNFTs` | modules/layer2/keeper/nft_test.go:5-14 | on success, GetTokenOwnerForNFT returns each listed token's given owner; an unauthorised sender or any duplicate leaves the ledger unchanged for every element; mirror and canonical store untouched |
| `Layer2.Keeper.UpdateNFTs` | modules/layer2/keeper/nft_test.go:16-32 | on success, each listed token's ledger owner is the new owner (the last one given for an id), the set of entries is unchanged, and the canonical store is not touched; an unauthorised sender or any missing id leaves the ledger unchanged |
| `Layer2.Keeper.DeleteNFTs` | modules/layer2/keeper/nft_test.go:34-54 | on success, exactly the listed entries are removed and GetTokenOwnerForNFT is NotFound for every listed id; an unauthorised sender, or a missing or repeated id, leaves the ledger unchanged |
| `Layer2.Keeper.UpdateClassesForNFT` | modules/layer2/keeper/nft_test.go:96-117 | on success, each listed class's mirror has the new BaseUri and owner and keeps its Id, and the set of mirrored classes is unchanged; an unauthorised sender or any unmirrored class leaves the mirror unchanged |
| `Layer2.WriteOwnersKeys` | modules/layer2/keeper/nft_test.go:5-14 | a batch write adds exactly the ledger keys the batch names |
| `Layer2.WriteOwnersLast` | modules/layer2/keeper/nft_test.go:27-31 | after a batch write, an id's owner is the one given by the batch's last element naming that id |
| `Layer2.WriteOwnersOther` | modules/layer2/keeper/nft_test.go:16-32 | a batch write leaves every entry the batch does not name unchanged |
| `Layer2.CreatedOwners` | modules/layer2/keeper/nft_test.go:9-13 | for a valid create batch, every listed token gets its listed owner and every earlier entry keeps its owner |
| `Layer2.UpdatedOwners` | modules/layer2/keeper/nft_test.go:20-31 | for a valid update batch, the ledger keeps its keys and every listed token gets its new owner |
| `Layer2.ClassUpdatesKeepIds` | modules/layer2/keeper/nft_test.go:113-115 | a batch class update keeps the set of mirrored classes and every record's Id |
| `Layer2.ClassUpdatesLast` | modules/layer2/keeper/nft_test.go:101-116 | after a batch class update, a class's BaseUri and owner are those of the last update naming it |
| `Layer2.ClassUpdatesOther` | modules/layer2/keeper/nft_test.go:96-117 | a class that no update names keeps its record |
| `Layer2.ClassRoundTrip` | modules/layer2/keeper/nft_test.go:119-135 | depositing a class and withdrawing it back to its earlier canonical owner restores the canonical store and leaves no mirror record |
| `Layer2.TokenRoundTrip` | modules/layer2/keeper/nft_test.go:152-182 | depositing a token and withdrawing it back to its owner restores the canonical store and the ledger, and HasTokenForNFT is false |
| `Layer2Scenarios.SetupTest` | modules/side-chain/keeper/keeper_test.go:44-64 | the fixture: class badKids owned by alice with two tokens, space 1 operated by accAvata, empty mirror and ledger |
| `Layer2Scenarios.TestCreateTokensForNFT` | modules/layer2/keeper/nft_test.go:5-14 | after the bulk create, both tokens' ledger owners are the listed owners |
| `Layer2Scenarios.TestUpdateTokensForNFT` | modules/layer2/keeper/nft_test.go:16-32 | after exchanging the owners by a bulk update, the lookups return bob and alice |
| `Layer2Scenarios.TestDeleteTokensForNFT` | modules/layer2/keeper/nft_test.go:34-54 | after two deposits, an update and a bulk delete, both lookups fail with NotFound |
| `Layer2Scenarios.TestDepositClassForNFTByAlice` | modules/layer2/keeper/nft_test.go:57-72 | the mirror is {badKids, uri, alice} and the canonical class owner is the module address |
| `Layer2Scenarios.TestDepositClassForNFTByL2User` | modules/layer2/keeper/nft_test.go:74-93 | after alice transfers the class to accAvata and accAvata deposits it naming alice, the mirror is {badKids, uri, alice} and the canonical owner is the module address |
| `Layer2Scenarios.TestUpdateClassForNFT` | modules/layer2/keeper/nft_test.go:96-117 | after the class update, the mirror keeps Id badKids and has the modified BaseUri |
| `Layer2Scenarios.TestWithdrawClassForNFT` | modules/layer2/keeper/nft_test.go:119-135 | the module holds the class after the deposit, and alice holds it after the withdrawal |
| `Layer2Scenarios.TestDepositTokenForNFT` | modules/layer2/keeper/nft_test.go:137-150 | the ledger owner is alice and the canonical token owner is the module address |
| `Layer2Scenarios.TestWithdrawTokenForNFT` | modules/layer2/keeper/nft_test.go:152-182 | after the withdrawal, HasTokenForNFT is false and the canonical owner is alice again |

## Left out

- Perm.BlockList.GetAllBlockAccounts: returns the account addresses themselves, not their bech32 strings. String rendering is an address-codec call outside this model.
- Perm.BlockList.GetContractDenyList: returns the contract addresses themselves, not their hex strings, for the same reason.
- Store values are the decoded `BoolValue` (always true). Protobuf encoding is left out, and `MustUnmarshal` cannot panic on values these operations store.
- The key-prefix layout is left out. Each list is its own map, so two different key constructors become two separate fields. The iteration order is the byte order of the address within its list.
- `IsAdmin` is a constant function handed to the block list. The role subsystem it reads is not part of this model.
- `HexToAddress` is a constant function into 20-byte addresses. Hex decoding is not part of this model.
- `BytesToAddress` is assumed to behave like go-ethereum's `common.BytesToAddress`: keep the last 20 bytes, or pad on the left with zeros. The perm types file, where the conversion is defined, is not part of this model.
- Error wrapping with the address string (`sdkerrors.Wrap`) is reduced to the error kind.
- The layer-2 keeper implementation is not part of this model. This model takes several decisions the tests leave open:
  - the order of the guard checks;
  - the authorisation rule for each operation;
  - `AlreadyExists` for a second deposit of a token;
  - who may re-deposit a class the module already holds (its recorded owner or an account authorised for the space);
  - `NotFound` for a missing or repeated id in `DeleteNFTs`;
  - removal of the mirror record on class withdrawal.
- Layer2.Keeper.WithdrawTokenForNFT: the new name, URI, URI hash and data are accepted but not written to the canonical token. The tests never assert them.
- Authorisation (side-chain user roles, space ownership) is the abstract predicate `authorized`. Space creation and the space sequence are not modelled.
- The token-id values and the class URI come from fixture data that is not part of this model. The scenarios use placeholder constants for them.
- Addresses are opaque strings. Bech32 and hex conversion, key generation, genesis, events, gas and the SDK context are left out.
- The other chain modules (validator, wevm, slashing, side-chain genesis) and the app bootstrapping are not part of this model.
