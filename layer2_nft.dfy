/**
 * The layer-2 NFT custody bridge. The canonical (layer-1) NFT store holds the
 * real owners of classes and tokens; the layer-2 keeper keeps a class mirror
 * keyed by class id alone and a token ledger keyed by (space, class, token)
 * that records the logical owner of each custodied token. Depositing moves the
 * canonical owner to the module's escrow address; withdrawing moves it out.
 */
module Layer2 {
  import opened Wrappers

  type AccAddress = string
  type ClassId = string
  type TokenId = string
  /** A space id; the bridge keys token records by it and passes it to the authorisation check. */
  type SpaceId = nat

  datatype Error = NotFound | AlreadyExists | Unauthorized | NotCustodied

  /** The class mirror record: the logical owner and base URI of a deposited class. */
  datatype ClassForNFT = ClassForNFT(id: ClassId, baseUri: string, owner: AccAddress)

  /** One element of a bulk create or update: a token id and its logical owner. */
  datatype TokenForNFT = TokenForNFT(id: TokenId, owner: AccAddress)

  /** One element of a bulk class update. */
  datatype UpdateClassForNFT = UpdateClassForNFT(id: ClassId, uri: string, owner: AccAddress)

  /** Key of the token ledger. */
  datatype TokenKey = TokenKey(spaceId: SpaceId, classId: ClassId, tokenId: TokenId)

  /** Key of a token in the canonical store. */
  datatype NftKey = NftKey(classId: ClassId, tokenId: TokenId)

  type Ledger = map<TokenKey, AccAddress>
  type Mirror = map<ClassId, ClassForNFT>

  // ---------------------------------------------------------------------
  // Batch specifications
  // ---------------------------------------------------------------------

  function IdsOf(tokens: seq<TokenForNFT>): (ids: seq<TokenId>)
    ensures |ids| == |tokens|
    ensures forall i :: 0 <= i < |tokens| ==> ids[i] == tokens[i].id
  {
    seq(|tokens|, i requires 0 <= i < |tokens| => tokens[i].id)
  }

  /** The ledger keys that a batch naming `ids` in space `s` and class `c` touches. */
  ghost function BatchKeys(s: SpaceId, c: ClassId, ids: seq<TokenId>): set<TokenKey>
  {
    set i | 0 <= i < |ids| :: TokenKey(s, c, ids[i])
  }

  /** Element `i` of a create batch is new to the ledger and to the batch before it. */
  ghost predicate CreatableAt(ledger: Ledger, s: SpaceId, c: ClassId, tokens: seq<TokenForNFT>, i: int)
    requires 0 <= i < |tokens|
  {
    TokenKey(s, c, tokens[i].id) !in ledger &&
    forall j :: 0 <= j < i ==> tokens[j].id != tokens[i].id
  }

  ghost predicate CreatableBatch(ledger: Ledger, s: SpaceId, c: ClassId, tokens: seq<TokenForNFT>)
  {
    forall i :: 0 <= i < |tokens| ==> CreatableAt(ledger, s, c, tokens, i)
  }

  ghost predicate UpdatableBatch(ledger: Ledger, s: SpaceId, c: ClassId, tokens: seq<TokenForNFT>)
  {
    forall i :: 0 <= i < |tokens| ==> TokenKey(s, c, tokens[i].id) in ledger
  }

  /** Element `i` of a delete batch is in the ledger and not deleted earlier in the batch. */
  ghost predicate DeletableAt(ledger: Ledger, s: SpaceId, c: ClassId, ids: seq<TokenId>, i: int)
    requires 0 <= i < |ids|
  {
    TokenKey(s, c, ids[i]) in ledger &&
    forall j :: 0 <= j < i ==> ids[j] != ids[i]
  }

  ghost predicate DeletableBatch(ledger: Ledger, s: SpaceId, c: ClassId, ids: seq<TokenId>)
  {
    forall i :: 0 <= i < |ids| ==> DeletableAt(ledger, s, c, ids, i)
  }

  ghost predicate ClassesUpdatable(mirror: Mirror, updates: seq<UpdateClassForNFT>)
  {
    forall i :: 0 <= i < |updates| ==> updates[i].id in mirror
  }

  /** No later element of the batch names the same id as element `i`. */
  ghost predicate LastWrite(tokens: seq<TokenForNFT>, i: int)
    requires 0 <= i < |tokens|
  {
    forall j :: i < j < |tokens| ==> tokens[j].id != tokens[i].id
  }

  ghost predicate LastClassUpdate(updates: seq<UpdateClassForNFT>, i: int)
    requires 0 <= i < |updates|
  {
    forall j :: i < j < |updates| ==> updates[j].id != updates[i].id
  }

  /** The ledger after writing each token's owner, in batch order. */
  function WriteOwners(ledger: Ledger, s: SpaceId, c: ClassId, tokens: seq<TokenForNFT>): Ledger
    decreases |tokens|
  {
    if tokens == [] then ledger
    else
      var n := |tokens| - 1;
      WriteOwners(ledger, s, c, tokens[..n])[TokenKey(s, c, tokens[n].id) := tokens[n].owner]
  }

  /** The class mirror after applying each update, in batch order, to a mirrored class. */
  function ApplyClassUpdates(mirror: Mirror, updates: seq<UpdateClassForNFT>): Mirror
    decreases |updates|
  {
    if updates == [] then mirror
    else
      var n := |updates| - 1;
      var m := ApplyClassUpdates(mirror, updates[..n]);
      var u := updates[n];
      if u.id in m then m[u.id := m[u.id].(baseUri := u.uri, owner := u.owner)] else m
  }

  lemma BatchKeysSnoc(s: SpaceId, c: ClassId, ids: seq<TokenId>, n: nat)
    requires n < |ids|
    ensures BatchKeys(s, c, ids[..n + 1]) == BatchKeys(s, c, ids[..n]) + {TokenKey(s, c, ids[n])}
  {
    var a := BatchKeys(s, c, ids[..n + 1]);
    var b := BatchKeys(s, c, ids[..n]) + {TokenKey(s, c, ids[n])};
    forall k | k in a ensures k in b {
      var i :| 0 <= i < n + 1 && k == TokenKey(s, c, ids[..n + 1][i]);
      if i < n { assert k == TokenKey(s, c, ids[..n][i]); }
    }
    forall k | k in b ensures k in a {
      if k != TokenKey(s, c, ids[n]) {
        var i :| 0 <= i < n && k == TokenKey(s, c, ids[..n][i]);
        assert k == TokenKey(s, c, ids[..n + 1][i]);
      } else {
        assert k == TokenKey(s, c, ids[..n + 1][n]);
      }
    }
  }

  /** A batch write adds exactly the keys the batch names. */
  lemma {:induction false} WriteOwnersKeys(ledger: Ledger, s: SpaceId, c: ClassId, tokens: seq<TokenForNFT>)
    ensures WriteOwners(ledger, s, c, tokens).Keys == ledger.Keys + BatchKeys(s, c, IdsOf(tokens))
    decreases |tokens|
  {
    if tokens == [] {
      assert BatchKeys(s, c, IdsOf(tokens)) == {};
    } else {
      var n := |tokens| - 1;
      WriteOwnersKeys(ledger, s, c, tokens[..n]);
      assert IdsOf(tokens[..n]) == IdsOf(tokens)[..n];
      BatchKeysSnoc(s, c, IdsOf(tokens), n);
      assert IdsOf(tokens)[..n + 1] == IdsOf(tokens);
    }
  }

  /** The last write of an id in a batch is the owner the ledger ends up with. */
  lemma {:induction false} WriteOwnersLast(ledger: Ledger, s: SpaceId, c: ClassId, tokens: seq<TokenForNFT>, i: nat)
    requires i < |tokens| && LastWrite(tokens, i)
    ensures TokenKey(s, c, tokens[i].id) in WriteOwners(ledger, s, c, tokens)
    ensures WriteOwners(ledger, s, c, tokens)[TokenKey(s, c, tokens[i].id)] == tokens[i].owner
    decreases |tokens|
  {
    var n := |tokens| - 1;
    if i < n {
      var pre := tokens[..n];
      assert pre[i] == tokens[i];
      assert LastWrite(pre, i) by {
        forall j | i < j < |pre| ensures pre[j].id != pre[i].id { assert pre[j] == tokens[j]; }
      }
      WriteOwnersLast(ledger, s, c, pre, i);
    }
  }

  /** An entry the batch does not name keeps its owner. */
  lemma {:induction false} WriteOwnersOther(ledger: Ledger, s: SpaceId, c: ClassId, tokens: seq<TokenForNFT>, k: TokenKey)
    requires k in ledger
    requires forall i :: 0 <= i < |tokens| ==> k != TokenKey(s, c, tokens[i].id)
    ensures k in WriteOwners(ledger, s, c, tokens) && WriteOwners(ledger, s, c, tokens)[k] == ledger[k]
    decreases |tokens|
  {
    if tokens != [] {
      var n := |tokens| - 1;
      var pre := tokens[..n];
      assert forall i :: 0 <= i < |pre| ==> pre[i] == tokens[i];
      WriteOwnersOther(ledger, s, c, pre, k);
    }
  }

  /** A creatable batch gives every listed token its listed owner and keeps every other entry. */
  lemma CreatedOwners(ledger: Ledger, s: SpaceId, c: ClassId, tokens: seq<TokenForNFT>)
    requires CreatableBatch(ledger, s, c, tokens)
    ensures WriteOwners(ledger, s, c, tokens).Keys == ledger.Keys + BatchKeys(s, c, IdsOf(tokens))
    ensures forall i :: 0 <= i < |tokens| ==>
      WriteOwners(ledger, s, c, tokens)[TokenKey(s, c, tokens[i].id)] == tokens[i].owner
    ensures forall k :: k in ledger ==> WriteOwners(ledger, s, c, tokens)[k] == ledger[k]
  {
    WriteOwnersKeys(ledger, s, c, tokens);
    forall i | 0 <= i < |tokens|
      ensures WriteOwners(ledger, s, c, tokens)[TokenKey(s, c, tokens[i].id)] == tokens[i].owner
    {
      forall j | i < j < |tokens| ensures tokens[j].id != tokens[i].id {
        assert CreatableAt(ledger, s, c, tokens, j);
      }
      WriteOwnersLast(ledger, s, c, tokens, i);
    }
    forall k | k in ledger ensures WriteOwners(ledger, s, c, tokens)[k] == ledger[k] {
      forall i | 0 <= i < |tokens| ensures k != TokenKey(s, c, tokens[i].id) {
        assert CreatableAt(ledger, s, c, tokens, i);
      }
      WriteOwnersOther(ledger, s, c, tokens, k);
    }
  }

  /** An updatable batch keeps the ledger's keys; the last write of each id gives its owner. */
  lemma UpdatedOwners(ledger: Ledger, s: SpaceId, c: ClassId, tokens: seq<TokenForNFT>)
    requires UpdatableBatch(ledger, s, c, tokens)
    ensures WriteOwners(ledger, s, c, tokens).Keys == ledger.Keys
    ensures forall i :: 0 <= i < |tokens| && LastWrite(tokens, i) ==>
      WriteOwners(ledger, s, c, tokens)[TokenKey(s, c, tokens[i].id)] == tokens[i].owner
  {
    WriteOwnersKeys(ledger, s, c, tokens);
    forall k | k in BatchKeys(s, c, IdsOf(tokens)) ensures k in ledger {
      var i :| 0 <= i < |tokens| && k == TokenKey(s, c, IdsOf(tokens)[i]);
    }
    forall i | 0 <= i < |tokens| && LastWrite(tokens, i)
      ensures WriteOwners(ledger, s, c, tokens)[TokenKey(s, c, tokens[i].id)] == tokens[i].owner
    {
      WriteOwnersLast(ledger, s, c, tokens, i);
    }
  }

  /** A batch class update keeps the set of mirrored classes and every record's id. */
  lemma {:induction false} ClassUpdatesKeepIds(mirror: Mirror, updates: seq<UpdateClassForNFT>)
    ensures ApplyClassUpdates(mirror, updates).Keys == mirror.Keys
    ensures forall c :: c in mirror ==> ApplyClassUpdates(mirror, updates)[c].id == mirror[c].id
    decreases |updates|
  {
    if updates != [] {
      ClassUpdatesKeepIds(mirror, updates[..|updates| - 1]);
    }
  }

  /** The last update of a mirrored class gives its base URI and owner. */
  lemma {:induction false} ClassUpdatesLast(mirror: Mirror, updates: seq<UpdateClassForNFT>, i: nat)
    requires i < |updates| && LastClassUpdate(updates, i) && updates[i].id in mirror
    ensures updates[i].id in ApplyClassUpdates(mirror, updates)
    ensures ApplyClassUpdates(mirror, updates)[updates[i].id].baseUri == updates[i].uri
    ensures ApplyClassUpdates(mirror, updates)[updates[i].id].owner == updates[i].owner
    decreases |updates|
  {
    var n := |updates| - 1;
    ClassUpdatesKeepIds(mirror, updates);
    ClassUpdatesKeepIds(mirror, updates[..n]);
    if i < n {
      var pre := updates[..n];
      assert pre[i] == updates[i];
      assert LastClassUpdate(pre, i) by {
        forall j | i < j < |pre| ensures pre[j].id != pre[i].id { assert pre[j] == updates[j]; }
      }
      ClassUpdatesLast(mirror, pre, i);
    }
  }

  /** A class that no update names keeps its record. */
  lemma {:induction false} ClassUpdatesOther(mirror: Mirror, updates: seq<UpdateClassForNFT>, c: ClassId)
    requires c in mirror
    requires forall i :: 0 <= i < |updates| ==> updates[i].id != c
    ensures c in ApplyClassUpdates(mirror, updates)
    ensures ApplyClassUpdates(mirror, updates)[c] == mirror[c]
    decreases |updates|
  {
    ClassUpdatesKeepIds(mirror, updates);
    if updates != [] {
      var n := |updates| - 1;
      var pre := updates[..n];
      assert forall i :: 0 <= i < |pre| ==> pre[i] == updates[i];
      ClassUpdatesKeepIds(mirror, pre);
      ClassUpdatesOther(mirror, pre, c);
    }
  }

  // ---------------------------------------------------------------------
  // The canonical (layer-1) NFT store, a collaborator of the bridge
  // ---------------------------------------------------------------------

  class NftStore {
    /** Real owner of each class. */
    var classes: map<ClassId, AccAddress>
    /** Real owner of each token. */
    var nfts: map<NftKey, AccAddress>

    constructor (classes: map<ClassId, AccAddress>, nfts: map<NftKey, AccAddress>)
      ensures this.classes == classes && this.nfts == nfts
    {
      this.classes := classes;
      this.nfts := nfts;
    }

    function GetClassOwner(classId: ClassId): (r: Result<AccAddress, Error>)
      reads this
      ensures r.Success? <==> classId in classes
      ensures r.Success? ==> r.value == classes[classId]
      ensures r.Failure? ==> r.error == NotFound
    {
      if classId in classes then Success(classes[classId]) else Failure(NotFound)
    }

    function GetNftOwner(classId: ClassId, tokenId: TokenId): (r: Result<AccAddress, Error>)
      reads this
      ensures r.Success? <==> NftKey(classId, tokenId) in nfts
      ensures r.Success? ==> r.value == nfts[NftKey(classId, tokenId)]
      ensures r.Failure? ==> r.error == NotFound
    {
      var key := NftKey(classId, tokenId);
      if key in nfts then Success(nfts[key]) else Failure(NotFound)
    }

    /** Moves a class from its owner `from` to `to`. */
    method TransferClass(classId: ClassId, from: AccAddress, to: AccAddress) returns (err: Option<Error>)
      modifies this
      ensures nfts == old(nfts)
      ensures classId !in old(classes) ==> err == Some(NotFound) && classes == old(classes)
      ensures classId in old(classes) && old(classes)[classId] != from ==>
        err == Some(Unauthorized) && classes == old(classes)
      ensures classId in old(classes) && old(classes)[classId] == from ==>
        err == None && classes == old(classes)[classId := to]
    {
      if classId !in classes {
        return Some(NotFound);
      }
      if classes[classId] != from {
        return Some(Unauthorized);
      }
      classes := classes[classId := to];
      return None;
    }

    /** Moves a token from its owner `from` to `to`. */
    method TransferNft(classId: ClassId, tokenId: TokenId, from: AccAddress, to: AccAddress)
      returns (err: Option<Error>)
      modifies this
      ensures classes == old(classes)
      ensures NftKey(classId, tokenId) !in old(nfts) ==> err == Some(NotFound) && nfts == old(nfts)
      ensures NftKey(classId, tokenId) in old(nfts) && old(nfts)[NftKey(classId, tokenId)] != from ==>
        err == Some(Unauthorized) && nfts == old(nfts)
      ensures NftKey(classId, tokenId) in old(nfts) && old(nfts)[NftKey(classId, tokenId)] == from ==>
        err == None && nfts == old(nfts)[NftKey(classId, tokenId) := to]
    {
      var key := NftKey(classId, tokenId);
      if key !in nfts {
        return Some(NotFound);
      }
      if nfts[key] != from {
        return Some(Unauthorized);
      }
      nfts := nfts[key := to];
      return None;
    }
  }

  // ---------------------------------------------------------------------
  // The layer-2 keeper
  // ---------------------------------------------------------------------

  class Keeper {
    /** The canonical store the bridge transfers through. */
    const nft: NftStore
    /** The module's escrow address: canonical owner of everything in custody. */
    const moduleAddress: AccAddress
    /** Whether an account may operate a space (the role subsystem, outside this model). */
    const authorized: (SpaceId, AccAddress) -> bool

    var classMirror: Mirror
    var tokenLedger: Ledger

    /** Every mirror record carries the class id it is stored under. */
    ghost predicate Valid()
      reads this
    {
      forall c :: c in classMirror ==> classMirror[c].id == c
    }

    /** Custody coherence for classes: every mirrored class is held by the module. */
    ghost predicate ClassCustodyCoherent()
      reads this, nft
    {
      forall c :: c in classMirror ==> c in nft.classes && nft.classes[c] == moduleAddress
    }

    constructor (nft: NftStore, moduleAddress: AccAddress, authorized: (SpaceId, AccAddress) -> bool)
      ensures Valid() && ClassCustodyCoherent()
      ensures this.nft == nft && this.moduleAddress == moduleAddress && this.authorized == authorized
      ensures classMirror == map[] && tokenLedger == map[]
    {
      this.nft := nft;
      this.moduleAddress := moduleAddress;
      this.authorized := authorized;
      classMirror := map[];
      tokenLedger := map[];
    }

    // --- queries ---

    function GetClassForNFT(classId: ClassId): (r: Result<ClassForNFT, Error>)
      reads this
      ensures r.Success? <==> classId in classMirror
      ensures r.Success? ==> r.value == classMirror[classId]
      ensures r.Success? && Valid() ==> r.value.id == classId
      ensures r.Failure? ==> r.error == NotFound
    {
      if classId in classMirror then Success(classMirror[classId]) else Failure(NotFound)
    }

    function GetTokenOwnerForNFT(spaceId: SpaceId, classId: ClassId, tokenId: TokenId): (r: Result<AccAddress, Error>)
      reads this
      ensures r.Success? <==> TokenKey(spaceId, classId, tokenId) in tokenLedger
      ensures r.Success? ==> r.value == tokenLedger[TokenKey(spaceId, classId, tokenId)]
      ensures r.Failure? ==> r.error == NotFound
    {
      var key := TokenKey(spaceId, classId, tokenId);
      if key in tokenLedger then Success(tokenLedger[key]) else Failure(NotFound)
    }

    /** The same lookup under its other name. */
    function GetTokenForNFT(spaceId: SpaceId, classId: ClassId, tokenId: TokenId): (r: Result<AccAddress, Error>)
      reads this
      ensures r == GetTokenOwnerForNFT(spaceId, classId, tokenId)
    {
      GetTokenOwnerForNFT(spaceId, classId, tokenId)
    }

    predicate HasTokenForNFT(spaceId: SpaceId, classId: ClassId, tokenId: TokenId): (r: bool)
      reads this
      ensures r <==> GetTokenOwnerForNFT(spaceId, classId, tokenId).Success?
    {
      TokenKey(spaceId, classId, tokenId) in tokenLedger
    }

    // --- custody transitions ---

    /**
     * Whether `sender` may deposit (or refresh) `classId`: the sender holds
     * the class itself, or the module holds it and the sender is the owner
     * the mirror records or is authorised for the space.
     */
    ghost predicate MayDepositClass(spaceId: SpaceId, classId: ClassId, sender: AccAddress)
      reads this, nft
      requires classId in nft.classes
    {
      nft.classes[classId] == sender ||
      (nft.classes[classId] == moduleAddress &&
       ((classId in classMirror && classMirror[classId].owner == sender) || authorized(spaceId, sender)))
    }

    /**
     * Takes a class into custody (or refreshes the record of one already in
     * custody): the canonical owner becomes the module address and the
     * mirror records `owner` and `baseUri`. The canonical owner must be
     * `sender`; once the module holds the class, only its recorded owner or
     * an account authorised for the space may refresh the record.
     */
    method DepositClassForNFT(spaceId: SpaceId, classId: ClassId, baseUri: string, owner: AccAddress, sender: AccAddress)
      returns (err: Option<Error>)
      requires Valid()
      modifies this, nft
      ensures Valid()
      ensures err.Some? ==> unchanged(this, nft)
      ensures classId !in old(nft.classes) ==> err == Some(NotFound)
      ensures (classId in old(nft.classes) && !old(MayDepositClass(spaceId, classId, sender))) ==>
        err == Some(Unauthorized)
      ensures (classId in old(nft.classes) && old(MayDepositClass(spaceId, classId, sender))) ==>
        err == None &&
        nft.classes == old(nft.classes)[classId := moduleAddress] && nft.nfts == old(nft.nfts) &&
        classMirror == old(classMirror)[classId := ClassForNFT(classId, baseUri, owner)] &&
        tokenLedger == old(tokenLedger)
      ensures old(ClassCustodyCoherent()) ==> ClassCustodyCoherent()
    {
      if classId !in nft.classes {
        return Some(NotFound);
      }
      var holder := nft.classes[classId];
      if holder == sender {
        var e := nft.TransferClass(classId, sender, moduleAddress);
        assert e == None;
      } else if holder != moduleAddress {
        return Some(Unauthorized);
      } else if !((classId in classMirror && classMirror[classId].owner == sender) || authorized(spaceId, sender)) {
        return Some(Unauthorized);
      }
      classMirror := classMirror[classId := ClassForNFT(classId, baseUri, owner)];
      return None;
    }

    /**
     * Releases a class from custody to `recipient`. The class must be
     * mirrored and held by the module, and `operator` must be its logical
     * owner or authorised for the space. The mirror record is removed.
     */
    method WithdrawClassForNFT(spaceId: SpaceId, classId: ClassId, recipient: AccAddress, operator: AccAddress)
      returns (err: Option<Error>)
      requires Valid()
      modifies this, nft
      ensures Valid()
      ensures err.Some? ==> unchanged(this, nft)
      ensures classId !in old(classMirror) ==> err == Some(NotFound)
      ensures classId in old(classMirror) &&
              (classId !in old(nft.classes) || old(nft.classes)[classId] != moduleAddress) ==>
        err == Some(NotCustodied)
      ensures classId in old(classMirror) && classId in old(nft.classes) &&
              old(nft.classes)[classId] == moduleAddress &&
              operator != old(classMirror)[classId].owner && !authorized(spaceId, operator) ==>
        err == Some(Unauthorized)
      ensures classId in old(classMirror) && classId in old(nft.classes) &&
              old(nft.classes)[classId] == moduleAddress &&
              (operator == old(classMirror)[classId].owner || authorized(spaceId, operator)) ==>
        err == None &&
        nft.classes == old(nft.classes)[classId := recipient] && nft.nfts == old(nft.nfts) &&
        classMirror == old(classMirror) - {classId} && tokenLedger == old(tokenLedger)
      ensures old(ClassCustodyCoherent()) ==> ClassCustodyCoherent()
    {
      if classId !in classMirror {
        return Some(NotFound);
      }
      if classId !in nft.classes || nft.classes[classId] != moduleAddress {
        return Some(NotCustodied);
      }
      if operator != classMirror[classId].owner && !authorized(spaceId, operator) {
        return Some(Unauthorized);
      }
      var e := nft.TransferClass(classId, moduleAddress, recipient);
      assert e == None;
      classMirror := classMirror - {classId};
      return None;
    }

    /**
     * Takes a token into custody for a space: its canonical owner must be
     * `from`, which the ledger then records as the logical owner, and the
     * canonical owner becomes the module address.
     */
    method DepositTokenForNFT(spaceId: SpaceId, classId: ClassId, tokenId: TokenId, from: AccAddress)
      returns (err: Option<Error>)
      requires Valid()
      modifies this, nft
      ensures Valid()
      ensures err.Some? ==> unchanged(this, nft)
      ensures NftKey(classId, tokenId) !in old(nft.nfts) ==> err == Some(NotFound)
      ensures NftKey(classId, tokenId) in old(nft.nfts) && old(nft.nfts)[NftKey(classId, tokenId)] != from ==>
        err == Some(Unauthorized)
      ensures NftKey(classId, tokenId) in old(nft.nfts) && old(nft.nfts)[NftKey(classId, tokenId)] == from &&
              TokenKey(spaceId, classId, tokenId) in old(tokenLedger) ==>
        err == Some(AlreadyExists)
      ensures NftKey(classId, tokenId) in old(nft.nfts) && old(nft.nfts)[NftKey(classId, tokenId)] == from &&
              TokenKey(spaceId, classId, tokenId) !in old(tokenLedger) ==>
        err == None &&
        nft.nfts == old(nft.nfts)[NftKey(classId, tokenId) := moduleAddress] && nft.classes == old(nft.classes) &&
        tokenLedger == old(tokenLedger)[TokenKey(spaceId, classId, tokenId) := from] &&
        classMirror == old(classMirror)
    {
      var key := NftKey(classId, tokenId);
      if key !in nft.nfts {
        return Some(NotFound);
      }
      if nft.nfts[key] != from {
        return Some(Unauthorized);
      }
      var entry := TokenKey(spaceId, classId, tokenId);
      if entry in tokenLedger {
        return Some(AlreadyExists);
      }
      var e := nft.TransferNft(classId, tokenId, from, moduleAddress);
      assert e == None;
      tokenLedger := tokenLedger[entry := from];
      return None;
    }

    /**
     * Releases a custodied token of a space to `recipient` and deletes its
     * ledger entry. `operator` must be authorised for the space. The new
     * name, URI, URI hash and data are accepted but not modelled.
     */
    method WithdrawTokenForNFT(spaceId: SpaceId, classId: ClassId, tokenId: TokenId,
                               name: string, uri: string, uriHash: string, data: string,
                               recipient: AccAddress, operator: AccAddress)
      returns (err: Option<Error>)
      requires Valid()
      modifies this, nft
      ensures Valid()
      ensures err.Some? ==> unchanged(this, nft)
      ensures TokenKey(spaceId, classId, tokenId) !in old(tokenLedger) ==> err == Some(NotFound)
      ensures TokenKey(spaceId, classId, tokenId) in old(tokenLedger) &&
              (NftKey(classId, tokenId) !in old(nft.nfts) || old(nft.nfts)[NftKey(classId, tokenId)] != moduleAddress) ==>
        err == Some(NotCustodied)
      ensures TokenKey(spaceId, classId, tokenId) in old(tokenLedger) &&
              NftKey(classId, tokenId) in old(nft.nfts) && old(nft.nfts)[NftKey(classId, tokenId)] == moduleAddress &&
              !authorized(spaceId, operator) ==>
        err == Some(Unauthorized)
      ensures TokenKey(spaceId, classId, tokenId) in old(tokenLedger) &&
              NftKey(classId, tokenId) in old(nft.nfts) && old(nft.nfts)[NftKey(classId, tokenId)] == moduleAddress &&
              authorized(spaceId, operator) ==>
        err == None &&
        nft.nfts == old(nft.nfts)[NftKey(classId, tokenId) := recipient] && nft.classes == old(nft.classes) &&
        tokenLedger == old(tokenLedger) - {TokenKey(spaceId, classId, tokenId)} &&
        classMirror == old(classMirror)
      ensures err == None ==> !HasTokenForNFT(spaceId, classId, tokenId)
    {
      var entry := TokenKey(spaceId, classId, tokenId);
      if entry !in tokenLedger {
        return Some(NotFound);
      }
      var key := NftKey(classId, tokenId);
      if key !in nft.nfts || nft.nfts[key] != moduleAddress {
        return Some(NotCustodied);
      }
      if !authorized(spaceId, operator) {
        return Some(Unauthorized);
      }
      var e := nft.TransferNft(classId, tokenId, moduleAddress, recipient);
      assert e == None;
      tokenLedger := tokenLedger - {entry};
      return None;
    }

    // --- batch validation (read-only) ---

    /** Validation pass of a bulk create. */
    method CanCreate(spaceId: SpaceId, classId: ClassId, tokens: seq<TokenForNFT>) returns (ok: bool)
      ensures ok <==> CreatableBatch(tokenLedger, spaceId, classId, tokens)
    {
      var seen: set<TokenId> := {};
      for i := 0 to |tokens|
        invariant seen == set j | 0 <= j < i :: tokens[j].id
        invariant forall j :: 0 <= j < i ==> CreatableAt(tokenLedger, spaceId, classId, tokens, j)
      {
        if TokenKey(spaceId, classId, tokens[i].id) in tokenLedger || tokens[i].id in seen {
          assert !CreatableAt(tokenLedger, spaceId, classId, tokens, i);
          return false;
        }
        seen := seen + {tokens[i].id};
      }
      return true;
    }

    /** Validation pass of a bulk update. */
    method CanUpdate(spaceId: SpaceId, classId: ClassId, tokens: seq<TokenForNFT>) returns (ok: bool)
      ensures ok <==> UpdatableBatch(tokenLedger, spaceId, classId, tokens)
    {
      for i := 0 to |tokens|
        invariant forall j :: 0 <= j < i ==> TokenKey(spaceId, classId, tokens[j].id) in tokenLedger
      {
        if TokenKey(spaceId, classId, tokens[i].id) !in tokenLedger {
          return false;
        }
      }
      return true;
    }

    /** Validation pass of a bulk delete. */
    method CanDelete(spaceId: SpaceId, classId: ClassId, ids: seq<TokenId>) returns (ok: bool)
      ensures ok <==> DeletableBatch(tokenLedger, spaceId, classId, ids)
    {
      var seen: set<TokenId> := {};
      for i := 0 to |ids|
        invariant seen == set j | 0 <= j < i :: ids[j]
        invariant forall j :: 0 <= j < i ==> DeletableAt(tokenLedger, spaceId, classId, ids, j)
      {
        if TokenKey(spaceId, classId, ids[i]) !in tokenLedger || ids[i] in seen {
          assert !DeletableAt(tokenLedger, spaceId, classId, ids, i);
          return false;
        }
        seen := seen + {ids[i]};
      }
      return true;
    }

    /** Validation pass of a bulk class update. */
    method CanUpdateClasses(updates: seq<UpdateClassForNFT>) returns (ok: bool)
      ensures ok <==> ClassesUpdatable(classMirror, updates)
    {
      for i := 0 to |updates|
        invariant forall j :: 0 <= j < i ==> updates[j].id in classMirror
      {
        if updates[i].id !in classMirror {
          return false;
        }
      }
      return true;
    }

    // --- batch mutations (ledger and mirror only) ---

    /**
     * Creates ledger entries for a batch of tokens of one class in one
     * space, or none of them: every id must be new to the ledger and to the
     * batch, and `sender` must be authorised for the space.
     */
    method CreateNFTs(spaceId: SpaceId, classId: ClassId, tokens: seq<TokenForNFT>, sender: AccAddress)
      returns (err: Option<Error>)
      requires Valid()
      modifies this
      ensures Valid() && classMirror == old(classMirror)
      ensures err.Some? ==> tokenLedger == old(tokenLedger)
      ensures !authorized(spaceId, sender) ==> err == Some(Unauthorized)
      ensures authorized(spaceId, sender) && !CreatableBatch(old(tokenLedger), spaceId, classId, tokens) ==>
        err == Some(AlreadyExists)
      ensures authorized(spaceId, sender) && CreatableBatch(old(tokenLedger), spaceId, classId, tokens) ==>
        err == None && tokenLedger == WriteOwners(old(tokenLedger), spaceId, classId, tokens)
      ensures err == None ==> forall i :: 0 <= i < |tokens| ==>
        GetTokenOwnerForNFT(spaceId, classId, tokens[i].id) == Success(tokens[i].owner)
    {
      if !authorized(spaceId, sender) {
        return Some(Unauthorized);
      }
      var ok := CanCreate(spaceId, classId, tokens);
      if !ok {
        return Some(AlreadyExists);
      }
      ghost var before := tokenLedger;
      for i := 0 to |tokens|
        invariant tokenLedger == WriteOwners(before, spaceId, classId, tokens[..i])
        invariant classMirror == old(classMirror)
      {
        assert tokens[..i + 1][..i] == tokens[..i];
        tokenLedger := tokenLedger[TokenKey(spaceId, classId, tokens[i].id) := tokens[i].owner];
      }
      assert tokens[..|tokens|] == tokens;
      CreatedOwners(before, spaceId, classId, tokens);
      return None;
    }

    /**
     * Overwrites the logical owner of each listed token, or of none: every
     * id must already be in the ledger, and `sender` must be authorised for
     * the space. The canonical store is not touched.
     */
    method UpdateNFTs(spaceId: SpaceId, classId: ClassId, tokens: seq<TokenForNFT>, sender: AccAddress)
      returns (err: Option<Error>)
      requires Valid()
      modifies this
      ensures Valid() && classMirror == old(classMirror)
      ensures err.Some? ==> tokenLedger == old(tokenLedger)
      ensures !authorized(spaceId, sender) ==> err == Some(Unauthorized)
      ensures authorized(spaceId, sender) && !UpdatableBatch(old(tokenLedger), spaceId, classId, tokens) ==>
        err == Some(NotFound)
      ensures authorized(spaceId, sender) && UpdatableBatch(old(tokenLedger), spaceId, classId, tokens) ==>
        err == None && tokenLedger == WriteOwners(old(tokenLedger), spaceId, classId, tokens)
      ensures err == None ==> tokenLedger.Keys == old(tokenLedger).Keys
      ensures err == None ==> forall i :: 0 <= i < |tokens| && LastWrite(tokens, i) ==>
        GetTokenOwnerForNFT(spaceId, classId, tokens[i].id) == Success(tokens[i].owner)
    {
      if !authorized(spaceId, sender) {
        return Some(Unauthorized);
      }
      var ok := CanUpdate(spaceId, classId, tokens);
      if !ok {
        return Some(NotFound);
      }
      ghost var before := tokenLedger;
      for i := 0 to |tokens|
        invariant tokenLedger == WriteOwners(before, spaceId, classId, tokens[..i])
        invariant classMirror == old(classMirror)
      {
        assert tokens[..i + 1][..i] == tokens[..i];
        tokenLedger := tokenLedger[TokenKey(spaceId, classId, tokens[i].id) := tokens[i].owner];
      }
      assert tokens[..|tokens|] == tokens;
      UpdatedOwners(before, spaceId, classId, tokens);
      return None;
    }

    /**
     * Deletes the ledger entries of the listed ids, or none: every id must
     * be in the ledger and listed once, and `sender` must be authorised for
     * the space. The canonical store is not touched.
     */
    method DeleteNFTs(spaceId: SpaceId, classId: ClassId, ids: seq<TokenId>, sender: AccAddress)
      returns (err: Option<Error>)
      requires Valid()
      modifies this
      ensures Valid() && classMirror == old(classMirror)
      ensures err.Some? ==> tokenLedger == old(tokenLedger)
      ensures !authorized(spaceId, sender) ==> err == Some(Unauthorized)
      ensures authorized(spaceId, sender) && !DeletableBatch(old(tokenLedger), spaceId, classId, ids) ==>
        err == Some(NotFound)
      ensures authorized(spaceId, sender) && DeletableBatch(old(tokenLedger), spaceId, classId, ids) ==>
        err == None && tokenLedger == old(tokenLedger) - BatchKeys(spaceId, classId, ids)
      ensures err == None ==> forall i :: 0 <= i < |ids| ==>
        GetTokenOwnerForNFT(spaceId, classId, ids[i]) == Failure(NotFound)
    {
      if !authorized(spaceId, sender) {
        return Some(Unauthorized);
      }
      var ok := CanDelete(spaceId, classId, ids);
      if !ok {
        return Some(NotFound);
      }
      ghost var before := tokenLedger;
      for i := 0 to |ids|
        invariant tokenLedger == before - BatchKeys(spaceId, classId, ids[..i])
        invariant classMirror == old(classMirror)
      {
        BatchKeysSnoc(spaceId, classId, ids, i);
        tokenLedger := tokenLedger - {TokenKey(spaceId, classId, ids[i])};
      }
      assert ids[..|ids|] == ids;
      forall i | 0 <= i < |ids| ensures TokenKey(spaceId, classId, ids[i]) in BatchKeys(spaceId, classId, ids) {
      }
      return None;
    }

    /**
     * Replaces the base URI and logical owner of each listed mirrored
     * class, or of none: every class must be mirrored, and `sender` must be
     * authorised for the space. The canonical store is not touched.
     */
    method UpdateClassesForNFT(spaceId: SpaceId, updates: seq<UpdateClassForNFT>, sender: AccAddress)
      returns (err: Option<Error>)
      requires Valid()
      modifies this
      ensures Valid() && tokenLedger == old(tokenLedger)
      ensures err.Some? ==> classMirror == old(classMirror)
      ensures !authorized(spaceId, sender) ==> err == Some(Unauthorized)
      ensures authorized(spaceId, sender) && !ClassesUpdatable(old(classMirror), updates) ==>
        err == Some(NotFound)
      ensures authorized(spaceId, sender) && ClassesUpdatable(old(classMirror), updates) ==>
        err == None && classMirror == ApplyClassUpdates(old(classMirror), updates)
      ensures err == None ==> classMirror.Keys == old(classMirror).Keys
      ensures err == None ==> forall i :: 0 <= i < |updates| && LastClassUpdate(updates, i) ==>
        GetClassForNFT(updates[i].id) ==
          Success(ClassForNFT(updates[i].id, updates[i].uri, updates[i].owner))
      ensures old(ClassCustodyCoherent()) ==> ClassCustodyCoherent()
    {
      if !authorized(spaceId, sender) {
        return Some(Unauthorized);
      }
      var ok := CanUpdateClasses(updates);
      if !ok {
        return Some(NotFound);
      }
      ghost var before := classMirror;
      for i := 0 to |updates|
        invariant classMirror == ApplyClassUpdates(before, updates[..i])
        invariant tokenLedger == old(tokenLedger)
      {
        assert updates[..i + 1][..i] == updates[..i];
        ClassUpdatesKeepIds(before, updates[..i]);
        var u := updates[i];
        var current := classMirror[u.id];
        classMirror := classMirror[u.id := current.(baseUri := u.uri, owner := u.owner)];
      }
      assert updates[..|updates|] == updates;
      ClassUpdatesKeepIds(before, updates);
      forall i | 0 <= i < |updates| && LastClassUpdate(updates, i)
        ensures GetClassForNFT(updates[i].id) ==
          Success(ClassForNFT(updates[i].id, updates[i].uri, updates[i].owner))
      {
        ClassUpdatesLast(before, updates, i);
      }
      return None;
    }
  }

  // ---------------------------------------------------------------------
  // Round trips
  // ---------------------------------------------------------------------

  /**
   * Depositing a class held by `sender` and withdrawing it back to `sender`
   * restores the canonical owner and leaves no mirror record.
   */
  method ClassRoundTrip(k: Keeper, spaceId: SpaceId, classId: ClassId, baseUri: string,
                        owner: AccAddress, sender: AccAddress, operator: AccAddress)
    requires k.Valid()
    requires classId in k.nft.classes && k.nft.classes[classId] == sender
    requires classId !in k.classMirror
    requires operator == owner || k.authorized(spaceId, operator)
    modifies k, k.nft
    ensures k.Valid()
    ensures k.nft.classes == old(k.nft.classes) && k.nft.nfts == old(k.nft.nfts)
    ensures k.classMirror == old(k.classMirror) && k.tokenLedger == old(k.tokenLedger)
  {
    var e1 := k.DepositClassForNFT(spaceId, classId, baseUri, owner, sender);
    assert e1 == None;
    var e2 := k.WithdrawClassForNFT(spaceId, classId, sender, operator);
    assert e2 == None;
  }

  /**
   * Depositing a token held by `from` and withdrawing it back to `from`
   * restores the canonical owner, and the ledger no longer has the token.
   */
  method TokenRoundTrip(k: Keeper, spaceId: SpaceId, classId: ClassId, tokenId: TokenId,
                        from: AccAddress, operator: AccAddress)
    requires k.Valid()
    requires NftKey(classId, tokenId) in k.nft.nfts && k.nft.nfts[NftKey(classId, tokenId)] == from
    requires TokenKey(spaceId, classId, tokenId) !in k.tokenLedger
    requires k.authorized(spaceId, operator)
    modifies k, k.nft
    ensures k.Valid()
    ensures k.nft.classes == old(k.nft.classes) && k.nft.nfts == old(k.nft.nfts)
    ensures k.classMirror == old(k.classMirror) && k.tokenLedger == old(k.tokenLedger)
    ensures !k.HasTokenForNFT(spaceId, classId, tokenId)
  {
    var e1 := k.DepositTokenForNFT(spaceId, classId, tokenId, from);
    assert e1 == None;
    var e2 := k.WithdrawTokenForNFT(spaceId, classId, tokenId, "", "", "", "", from, operator);
    assert e2 == None;
  }
}
