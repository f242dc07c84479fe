/**
 * The layer-2 keeper's test cases, replayed on the suite's fixture: space 1
 * belongs to accAvata, and the canonical store holds class `badKids`, owned
 * by alice, with two tokens. Each method returns what its test queries and
 * states in its postcondition what the test asserts.
 */
module Layer2Scenarios {
  import opened Wrappers
  import opened Layer2

  const AccAvata: AccAddress := "acc_avata"
  const AccAlice: AccAddress := "acc_alice"
  const AccBob: AccAddress := "acc_bob"
  /** The layer-2 module account. */
  const ModuleAddress: AccAddress := "layer2_module"

  const AvataSpaceId: SpaceId := 1
  const BadKidsClassId: ClassId := "badKids"
  const BadKidsClassUri: string := "badKids_uri"
  const KidOne: TokenId := "kid_1"
  const KidTwo: TokenId := "kid_2"

  /** The two tokens of the fixture with their canonical owners. */
  const BadKidsTokensForNFT: seq<TokenForNFT> :=
    [TokenForNFT(KidOne, AccAlice), TokenForNFT(KidTwo, AccBob)]

  /** The space owner is the one account allowed to operate space 1. */
  predicate SpaceOperator(spaceId: SpaceId, account: AccAddress)
  {
    spaceId == AvataSpaceId && account == AccAvata
  }

  method SetupTest() returns (k: Keeper)
    ensures fresh(k) && fresh(k.nft) && k.Valid()
    ensures k.moduleAddress == ModuleAddress && k.authorized == SpaceOperator
    ensures k.nft.classes == map[BadKidsClassId := AccAlice]
    ensures k.nft.nfts == map[NftKey(BadKidsClassId, KidOne) := AccAlice, NftKey(BadKidsClassId, KidTwo) := AccBob]
    ensures k.classMirror == map[] && k.tokenLedger == map[]
  {
    var store := new NftStore(
      map[BadKidsClassId := AccAlice],
      map[NftKey(BadKidsClassId, KidOne) := AccAlice, NftKey(BadKidsClassId, KidTwo) := AccBob]);
    k := new Keeper(store, ModuleAddress, SpaceOperator);
  }

  method TestCreateTokensForNFT() returns (owner1: Result<AccAddress, Error>, owner2: Result<AccAddress, Error>)
    ensures owner1 == Success(AccAlice) && owner2 == Success(AccBob)
  {
    var k := SetupTest();
    var err := k.CreateNFTs(AvataSpaceId, BadKidsClassId, BadKidsTokensForNFT, AccAvata);
    assert err == None;
    owner1 := k.GetTokenOwnerForNFT(AvataSpaceId, BadKidsClassId, KidOne);
    owner2 := k.GetTokenOwnerForNFT(AvataSpaceId, BadKidsClassId, KidTwo);
  }

  method TestUpdateTokensForNFT() returns (owner1: Result<AccAddress, Error>, owner2: Result<AccAddress, Error>)
    ensures owner1 == Success(AccBob) && owner2 == Success(AccAlice)
  {
    var k := SetupTest();
    var err := k.CreateNFTs(AvataSpaceId, BadKidsClassId, BadKidsTokensForNFT, AccAvata);
    assert err == None;
    var exchanged := [TokenForNFT(KidOne, AccBob), TokenForNFT(KidTwo, AccAlice)];
    err := k.UpdateNFTs(AvataSpaceId, BadKidsClassId, exchanged, AccAvata);
    assert err == None;
    assert LastWrite(exchanged, 0) && LastWrite(exchanged, 1);
    owner1 := k.GetTokenOwnerForNFT(AvataSpaceId, BadKidsClassId, KidOne);
    owner2 := k.GetTokenOwnerForNFT(AvataSpaceId, BadKidsClassId, KidTwo);
  }

  method TestDeleteTokensForNFT() returns (owner1: Result<AccAddress, Error>, owner2: Result<AccAddress, Error>)
    ensures owner1 == Failure(NotFound) && owner2 == Failure(NotFound)
  {
    var k := SetupTest();
    var err := k.DepositTokenForNFT(AvataSpaceId, BadKidsClassId, KidOne, AccAlice);
    assert err == None;
    err := k.DepositTokenForNFT(AvataSpaceId, BadKidsClassId, KidTwo, AccBob);
    assert err == None;
    err := k.UpdateNFTs(AvataSpaceId, BadKidsClassId, BadKidsTokensForNFT, AccAvata);
    assert err == None;
    var nftIds := [KidOne, KidTwo];
    err := k.DeleteNFTs(AvataSpaceId, BadKidsClassId, nftIds, AccAvata);
    assert err == None;
    assert nftIds[0] == KidOne && nftIds[1] == KidTwo;
    owner1 := k.GetTokenOwnerForNFT(AvataSpaceId, BadKidsClassId, KidOne);
    owner2 := k.GetTokenOwnerForNFT(AvataSpaceId, BadKidsClassId, KidTwo);
  }

  method TestDepositClassForNFTByAlice() returns (mirror: Result<ClassForNFT, Error>, layer1Owner: Result<AccAddress, Error>)
    ensures mirror == Success(ClassForNFT(BadKidsClassId, BadKidsClassUri, AccAlice))
    ensures layer1Owner == Success(ModuleAddress)
  {
    var k := SetupTest();
    var err := k.DepositClassForNFT(AvataSpaceId, BadKidsClassId, BadKidsClassUri, AccAlice, AccAlice);
    assert err == None;
    mirror := k.GetClassForNFT(BadKidsClassId);
    layer1Owner := k.nft.GetClassOwner(BadKidsClassId);
  }

  method TestDepositClassForNFTByL2User() returns (mirror: Result<ClassForNFT, Error>, layer1Owner: Result<AccAddress, Error>)
    ensures mirror == Success(ClassForNFT(BadKidsClassId, BadKidsClassUri, AccAlice))
    ensures layer1Owner == Success(ModuleAddress)
  {
    var k := SetupTest();
    var err := k.nft.TransferClass(BadKidsClassId, AccAlice, AccAvata);
    assert err == None;
    err := k.DepositClassForNFT(AvataSpaceId, BadKidsClassId, BadKidsClassUri, AccAlice, AccAvata);
    assert err == None;
    mirror := k.GetClassForNFT(BadKidsClassId);
    layer1Owner := k.nft.GetClassOwner(BadKidsClassId);
  }

  method TestUpdateClassForNFT() returns (mirror: Result<ClassForNFT, Error>)
    ensures mirror.Success?
    ensures mirror.value.id == BadKidsClassId && mirror.value.baseUri == BadKidsClassUri + "modified"
  {
    var k := SetupTest();
    var err := k.DepositClassForNFT(AvataSpaceId, BadKidsClassId, BadKidsClassUri, AccAlice, AccAlice);
    assert err == None;
    var newUri := BadKidsClassUri + "modified";
    var classUpdates := [UpdateClassForNFT(BadKidsClassId, newUri, AccBob)];
    err := k.UpdateClassesForNFT(AvataSpaceId, classUpdates, AccAvata);
    assert err == None;
    assert LastClassUpdate(classUpdates, 0);
    mirror := k.GetClassForNFT(BadKidsClassId);
  }

  method TestWithdrawClassForNFT() returns (custodian: Result<AccAddress, Error>, layer1Owner: Result<AccAddress, Error>)
    ensures custodian == Success(ModuleAddress)
    ensures layer1Owner == Success(AccAlice)
  {
    var k := SetupTest();
    var err := k.DepositClassForNFT(AvataSpaceId, BadKidsClassId, BadKidsClassUri, AccAlice, AccAlice);
    assert err == None;
    custodian := k.nft.GetClassOwner(BadKidsClassId);
    err := k.WithdrawClassForNFT(AvataSpaceId, BadKidsClassId, AccAlice, AccAvata);
    assert err == None;
    layer1Owner := k.nft.GetClassOwner(BadKidsClassId);
  }

  method TestDepositTokenForNFT() returns (owner: Result<AccAddress, Error>, layer1Owner: Result<AccAddress, Error>)
    ensures owner == Success(AccAlice)
    ensures layer1Owner == Success(ModuleAddress)
  {
    var k := SetupTest();
    var err := k.DepositTokenForNFT(AvataSpaceId, BadKidsClassId, KidOne, AccAlice);
    assert err == None;
    owner := k.GetTokenForNFT(AvataSpaceId, BadKidsClassId, KidOne);
    layer1Owner := k.nft.GetNftOwner(BadKidsClassId, KidOne);
  }

  method TestWithdrawTokenForNFT() returns (exist: bool, layer1Owner: Result<AccAddress, Error>)
    ensures !exist
    ensures layer1Owner == Success(AccAlice)
  {
    var k := SetupTest();
    var err := k.DepositTokenForNFT(AvataSpaceId, BadKidsClassId, KidOne, AccAlice);
    assert err == None;
    var owner := k.GetTokenForNFT(AvataSpaceId, BadKidsClassId, KidOne);
    assert owner == Success(AccAlice);
    var custodian := k.nft.GetNftOwner(BadKidsClassId, KidOne);
    assert custodian == Success(ModuleAddress);
    err := k.WithdrawTokenForNFT(AvataSpaceId, BadKidsClassId, KidOne,
      "new-name", "new-uri", "new-uri-hash", "new-data", AccAlice, AccAvata);
    assert err == None;
    exist := k.HasTokenForNFT(AvataSpaceId, BadKidsClassId, KidOne);
    layer1Owner := k.nft.GetNftOwner(BadKidsClassId, KidOne);
  }
}
