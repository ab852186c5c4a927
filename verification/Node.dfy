/** The node object: the same operations in place, over the store, the vault, the key-image
    ledger and the vectors in memory (src/node.cpp, src/ring_signature.cpp:389-405). */
module Nodes {
  import opened Types
  import opened ByteOrder
  import opened CurveModel
  import opened HeaderModel
  import opened Merkle
  import opened VaultModel
  import opened DbModel
  import opened Ledger
  import opened Checks
  import opened Runs
  import opened Decoys
  import Ring
  import Stealth

  /** The spent images in memory. They are kept as hexadecimal strings of canonical images;
      two strings are equal exactly when the images are (ByteOrder.HexOrder). */
  class KeyImageLedger {
    var spent: set<KeyImage>

    constructor ()
      ensures spent == {}
    {
      spent := {};
    }

    /** False if the image was there already. */
    method Register(k: Curve, image: KeyImage) returns (added: bool)
      modifies this
      ensures spent == old(spent) + {Canonical(k, image)} && added == (Canonical(k, image) !in old(spent))
    {
      if Canonical(k, image) in spent { return false; }
      spent := spent + {Canonical(k, image)};
      return true;
    }

    function Holds(k: Curve, image: KeyImage): bool
      reads this
    {
      Canonical(k, image) in spent
    }

    /** A stored image is canonical already and is not canonicalized again. */
    method Restore(image: KeyImage)
      modifies this
      ensures spent == old(spent) + {image}
    {
      spent := spent + {image};
    }

    method Clear()
      modifies this
      ensures spent == {}
    {
      spent := {};
    }

    method RegisterAll(k: Curve, images: seq<KeyImage>)
      modifies this
      ensures spent == old(spent) + Elements(CanonicalAll(k, images))
    {
      hide Canonical;
      for i := 0 to |images|
        invariant spent == old(spent) + Elements(CanonicalAll(k, images)[..i])
      {
        var _ := Register(k, images[i]);
        assert CanonicalAll(k, images)[..i + 1] == CanonicalAll(k, images)[..i] + [Canonical(k, images[i])];
        ElementsPush(CanonicalAll(k, images)[..i], Canonical(k, images[i]));
      }
      assert CanonicalAll(k, images)[..|images|] == CanonicalAll(k, images);
    }

    method RestoreAll(images: set<KeyImage>)
      modifies this
      ensures spent == old(spent) + images
    {
      var rest := images;
      while rest != {}
        invariant rest <= images && spent == old(spent) + (images - rest)
        decreases |rest|
      {
        var image :| image in rest;
        Restore(image);
        rest := rest - {image};
      }
    }
  }

  lemma GenesisIsEmpty()
    ensures NewOutputs(GENESIS) == [] && Spends(GENESIS) == []
  {
  }

  class Node {
    const p: Params
    const db: BlockchainDB
    const vault: Vault
    const ledger: KeyImageLedger
    var pool: seq<OneTimeOutput>
    var history: seq<ShieldedTransaction>

    function State(): NodeState
      reads this, db, vault, ledger
    {
      NodeState(db.State(), vault.State(), ledger.spent, pool, history)
    }

    ghost predicate Valid()
      reads vault
    {
      vault.depositBps == p.depositBps && vault.withdrawBps == p.withdrawBps
    }

    /** A process starting over the given tables. */
    constructor (p: Params, tables: Tables)
      ensures Valid() && this.p == p && State() == Restart(p, tables)
      ensures fresh(db) && fresh(vault) && fresh(ledger)
    {
      this.p := p;
      db := new BlockchainDB(p.k, tables);
      vault := new Vault(p.depositBps, p.withdrawBps);
      ledger := new KeyImageLedger();
      pool, history := [], [];
      new;
      InitOrRecoverDatabase();
    }

    /** The first start commits the genesis block; later ones recover. */
    method InitOrRecoverDatabase()
      requires Valid()
      modifies this, db, vault, ledger
      ensures Valid()
      ensures var s := old(State());
        State() == if s.db.topHeight == 0 && LoadBlock(p.k, s.db.tables.blocks, 0).None?
                   then s.(db := CommitBlock(p.k, s.db, GENESIS, s.vault)) else Recover(p.k, s)
    {
      hide Reread;
      var first := db.GetBlock(p.k, 0);
      if db.topHeight == 0 && first.None? {
        GenesisIsEmpty();
        db.Commit(p.k, GENESIS, vault.State(), [], []);
      } else {
        RecoverStateFromDb();
      }
    }

    /** Everything in memory is read back from the tables. */
    method RecoverStateFromDb()
      requires Valid()
      modifies this, vault, ledger
      ensures Valid() && State() == Recover(p.k, old(State()))
    {
      hide CursorValues, Legible, Reread;
      if db.tables.vault.Some? {
        var _ := vault.RestoreState(db.tables.vault.value);
      }
      pool := db.LoadAllUtxos(p.k);
      ledger.Clear();
      var images := db.LoadAllKeyImages();
      ledger.RestoreAll(images);
      history := [];
      for h := 1 to db.topHeight + 1
        invariant history == StoredTxs(p.k, db.tables.blocks, h - 1)
        invariant Valid() && db.State() == old(db.State()) && pool == LoadedOutputs(p.k, db.tables.utxos)
        invariant ledger.spent == images
        invariant vault.State() == if db.tables.vault.Some? then db.tables.vault.value else old(vault.State())
      {
        var b := db.GetBlock(p.k, h);
        if b.Some? { history := history + b.value.txs; }
      }
    }

    // ---- Remote blocks ----

    /** All checks of a block against the current state; the vault after it. */
    method Validate(b: Block) returns (r: Option<Balances>)
      requires Valid()
      ensures r.Some? <==> ValidBlock(p, State(), b)
      ensures r.Some? ==> r == NextVault(p, State(), b)
    {
      hide DepositsOk, TxsOk, WithdrawalsOk, AuthOk;
      if b.header.height != db.topHeight + 1 { return None; }
      if b.header.prevHash != db.topHash { return None; }
      var root := ComputeMerkleRoot(p.k, b);
      if b.header.merkleRoot != root { return None; }
      var auth := CheckAuth(p, b);
      if !auth { return None; }
      var temp := new Vault(p.depositBps, p.withdrawBps);
      var sound := temp.RestoreState(vault.State());
      if !sound { return None; }
      r := ValidateBody(b, temp);
    }

    method ValidateBody(b: Block, temp: Vault) returns (r: Option<Balances>)
      requires Valid() && temp != vault && temp.State() == vault.State() && AuditSolvency(vault.State())
      requires temp.depositBps == p.depositBps && temp.withdrawBps == p.withdrawBps
      modifies temp
      ensures r.Some? <==> BodyOk(p, State(), b)
      ensures r.Some? ==> r == NextVault(p, State(), b)
    {
      ghost var s := State();
      var deposits := CheckDeposits(p, State(), b, temp);
      if !deposits { return None; }
      var txs, images := CheckTxs(p, State(), b);
      PrefixOfSpends(p.k, b);
      if !txs { return None; }
      var outs := CheckChangeOutputs(p.k, b.withdrawalOutputs);
      if !outs { return None; }
      ghost var v := temp.State();
      var withdrawals := CheckWithdrawals(p, State(), b, images, temp);
      if !withdrawals { return None; }
      DepositsAudited(s.vault, p.depositBps, b.deposits);
      WithdrawalsAudited(v, p.withdrawBps, b.withdrawals);
      if !AuditSolvency(temp.State()) { return None; }
      return Some(temp.State());
    }

    /** Taking a validated block into memory and into the store. */
    method TakeIn(b: Block, v: Balances)
      requires Valid()
      modifies this, db, vault, ledger
      ensures Valid()
      ensures var s := old(State());
        State() == NodeState(CommitBlock(p.k, s.db, b, v), v, s.spent + Elements(CanonicalAll(p.k, Spends(b))),
                             s.pool + NewOutputs(b), s.history + b.txs)
    {
      var _ := vault.RestoreState(v);
      var images := CollectImages(b);
      var outs := CollectOutputs(b.txs);
      outs := outs + b.depositOutputs + b.withdrawalOutputs;
      ledger.RegisterAll(p.k, images);
      pool := pool + outs;
      history := history + b.txs;
      db.Commit(p.k, b, vault.State(), outs, images);
    }

    /** A block on the tip: validated and taken in, or memory is reloaded from the store. */
    method ExtendTip(b: Block) returns (ok: bool)
      requires Valid()
      modifies this, db, vault, ledger
      ensures Valid() && (State(), ok) == Extend(p, old(State()), b)
    {
      var v := Validate(b);
      hide ValidBlock, NextVault, CommitBlock, NewOutputs, Spends;
      if v.None? {
        RecoverStateFromDb();
        return false;
      }
      TakeIn(b, v.value);
      return true;
    }

    /** ReorgGuard on failure: the old top block is committed again with the saved vault. */
    method PutBack(local: Block, saved: Balances)
      requires Valid()
      modifies this, db, vault, ledger
      ensures Valid()
      ensures var s := old(State());
        State() == Recover(p.k, s.(db := CommitDb(p.k, s.db, local, saved, GuardOutputs(local), Spends(local))))
    {
      var images := CollectImages(local);
      var outs := CollectOutputs(local.txs);
      db.Commit(p.k, local, saved, local.depositOutputs + outs + local.withdrawalOutputs, images);
      RecoverStateFromDb();
    }

    /** A preferred competing block. */
    method Reorganise(b: Block, local: Block) returns (ok: bool)
      requires Valid()
      modifies this, db, vault, ledger
      ensures Valid() && (State(), ok) == Reorg(p, old(State()), b, local)
    {
      var saved := vault.State();
      var rolled := db.RollbackTopBlock(p.k);
      hide RollbackDb, Recover, ValidBlock, NextVault, CommitBlock, CommitDb, NewOutputs, Spends, GuardOutputs;
      if !rolled { return false; }
      RecoverStateFromDb();
      var v := Validate(b);
      if v.None? {
        PutBack(local, saved);
        return false;
      }
      TakeIn(b, v.value);
      return true;
    }

    method ApplyRemoteBlock(b: Block) returns (ok: bool)
      requires Valid()
      modifies this, db, vault, ledger
      ensures Valid() && (State(), ok) == ApplyRemote(p, old(State()), b)
    {
      var h := db.topHeight;
      hide Extend, Reorg, Reread;
      if b.header.height == h && h > 0 {
        var loaded := db.GetBlock(p.k, h);
        if loaded.None? { return false; }
        var local := loaded.value;
        if BlockHash(p.k, b) == BlockHash(p.k, local) { return true; }
        if b.header.prevHash != local.header.prevHash { return false; }
        var r := VerifyQuorum(p.k, b.header, p.authorized);
        var l := VerifyQuorum(p.k, local.header, p.authorized);
        if !(r > l || (r == l && Less(ToHex(BlockHash(p.k, b)), ToHex(BlockHash(p.k, local))))) { return false; }
        ok := Reorganise(b, local);
      } else {
        ok := ExtendTip(b);
      }
    }

    // ---- Local operations; None is an exception ----

    /** Packing sections under a header signed by the local validator. */
    method Mine(timestamp: U64, sections: Block) returns (h: BlockHeader)
      requires db.topHeight + 1 < TWO_64
      ensures fresh(h) && sections.(header := h.Value()) == MineBlock(p, State(), timestamp, sections)
      ensures |h.quorumKeys| == |h.quorumSigs|
    {
      hide MerkleRoot;
      var root := ComputeMerkleRoot(p.k, sections);
      h := new BlockHeader(Header(3, db.topHeight + 1, db.topHash, root, timestamp, 0, ZERO_KEY, ZERO_SIG, [], []));
      h.SignAs(p.k, p.sk, p.pk);
    }

    /** `buy_shielded`: the vault is credited before the output is derived. */
    method BuyShielded(a: BuyArgs) returns (r: Option<Block>)
      requires Valid() && db.topHeight + 1 < TWO_64
      modifies this, db, vault, ledger
      ensures Valid()
      ensures match Buy(p, old(State()), a)
        case Mined(s, b) => State() == s && r == Some(b)
        case Failed(s) => State() == s && r.None?
    {
      hide MineBlock, Quorum, Append, Committed, ToHex;
      var before := vault.State();
      var receipt := vault.Deposit(a.gross, a.customTxHash, a.randomHash);
      if receipt.Refused? { return None; }
      var d := receipt.value.(viewPub := a.to.viewPub, spendPub := a.to.spendPub);
      var secret := Stealth.SeededSecret(p.k, Stealth.DepositSeed(p.k, d.txHash));
      var utxo := Stealth.CreateOutput(p.k, a.to, d.net, secret);
      if utxo.None? { return None; }
      var sections := Block(NO_HEADER, [], [d], [], [utxo.value], []);
      DepositAppends(p, old(State()), a, sections);
      r := SealDeposit(a, sections, before);
    }

    method SealDeposit(a: BuyArgs, sections: Block, before: Balances) returns (r: Option<Block>)
      requires Valid() && db.topHeight + 1 < TWO_64
      requires |sections.depositOutputs| == 1 && sections.txs == [] && sections.withdrawals == [] && sections.withdrawalOutputs == []
      modifies this, db, vault, ledger
      ensures Valid()
      ensures var s, b := old(State()), DepositBlock(p, old(State()), a, sections);
        if p.authorized != [] && Quorum(p.k, b.header, p.authorized) < RequiredQuorum(p)
        then r.None? && State() == s.(vault := before)
        else r == Some(b) && State() == Committed(p, s, b)
    {
      hide Quorum, Committed, MineBlock, Cosign;
      var utxo := sections.depositOutputs[0];
      pool := pool + [utxo];
      var h := Mine(a.timestamp, sections);
      MineReadsStore(p, old(State()), State(), a.timestamp, sections);
      h.CosignAll(p.k, a.cosigners);
      var b := sections.(header := h.Value());
      if p.authorized != [] {
        var quorum := VerifyQuorum(p.k, b.header, p.authorized);
        if quorum < RequiredQuorum(p) {
          pool := pool[..|pool| - 1];
          var _ := vault.RestoreState(before);
          return None;
        }
      }
      CommitDeposit(b, utxo, old(State()));
      return Some(b);
    }

    method CommitDeposit(b: Block, utxo: OneTimeOutput, ghost s: NodeState)
      requires b.depositOutputs == [utxo] && b.txs == [] && b.withdrawals == [] && b.withdrawalOutputs == []
      requires State() == s.(pool := s.pool + [utxo])
      modifies db
      ensures State() == Committed(p, s, b)
    {
      DepositTouches(p.k, b);
      db.Commit(p.k, b, vault.State(), [utxo], []);
    }

    /** The checks and the signature of a transfer; nothing is changed yet. */
    method BuildTransaction(a: TransferArgs) returns (tx: Option<ShieldedTransaction>)
      ensures tx == BuildTransfer(p, State(), a)
    {
      hide Ring.Verify, Ring.Sign, SelectDecoys, Ring.KeyImageOf, Stealth.DerivePrivateKey, Stealth.ScanOutput, Stealth.CreateOutput;
      if !Stealth.ScanOutput(p.k, a.wallet, a.input) { return None; }
      var needed := SafeAdd(a.send, a.fee);
      if needed.None? || a.input.amount < needed.value { return None; }
      var present := Present(pool, a.input);
      if !present { return None; }
      var x := Stealth.DerivePrivateKey(p.k, a.wallet, a.input);
      if x.None? { return None; }
      var image := Ring.KeyImageOf(p.k, x.value, a.input.destination);
      if image.None? || IsSpent(p.k, State(), image.value) { return None; }
      var decoys := ChooseDecoys(pool, RING_SIZE, a.input.destination, a.input.amount, a.rnd.pick);
      var at := a.rnd.position % (|decoys| + 1);
      var ring := decoys[..at] + [a.input.destination] + decoys[at..];
      var outs := TransferOutputs(p.k, a);
      if outs.None? { return None; }
      var txHash := Ring.CanonicalTxHash(p.k, outs.value, a.fee, ring, image.value);
      var sig := Ring.SignLoop(p.k, txHash, ring, at, x.value, a.rnd.alpha, Draws(a.rnd.draw, |ring|));
      if sig.None? { return None; }
      var verified := Ring.VerifyLoop(p.k, txHash, sig.value);
      if !verified { return None; }
      return Some(ShieldedTransaction(txHash, sig.value, outs.value, a.fee, TRANSFER_TIMESTAMP));
    }

    /** Registering, appending and committing one transaction. */
    method CommitTransaction(tx: ShieldedTransaction, timestamp: U64) returns (b: Block)
      requires Valid() && db.topHeight + 1 < TWO_64
      modifies this, db, vault, ledger
      ensures Valid() && b == MineBlock(p, old(State()), timestamp, Block(NO_HEADER, [tx], [], [], [], []))
      ensures State() == Append(p, old(State()), b)
    {
      var _ := ledger.Register(p.k, tx.ringSig.keyImage);
      pool := pool + tx.outputs;
      history := history + [tx];
      var sections := Block(NO_HEADER, [tx], [], [], [], []);
      var h := Mine(timestamp, sections);
      b := sections.(header := h.Value());
      hide MineBlock, CommitTables;
      MineReadsStore(p, old(State()), State(), timestamp, sections);
      TransactionTouches(p, old(State()), b, tx);
      db.Commit(p.k, b, vault.State(), tx.outputs, [tx.ringSig.keyImage]);
    }

    method TransferShielded(a: TransferArgs) returns (r: Option<Block>)
      requires Valid() && db.topHeight + 1 < TWO_64
      modifies this, db, vault, ledger
      ensures Valid()
      ensures match Transfer(p, old(State()), a)
        case Mined(s, b) => State() == s && r == Some(b)
        case Failed(s) => State() == s && r.None?
    {
      hide BuildTransfer, MineBlock, Append;
      var tx := BuildTransaction(a);
      if tx.None? { return None; }
      var b := CommitTransaction(tx.value, a.timestamp);
      return Some(b);
    }

    /** The checks of a pre-signed transaction. */
    method CheckSubmitted(tx: ShieldedTransaction) returns (ok: bool)
      ensures ok == SubmitOk(p, State(), tx)
    {
      hide Ring.Verify;
      if !p.k.valid(tx.ringSig.keyImage) { return false; }
      if !Ring.TorsionOk(p.k, tx.ringSig.keyImage) { return false; }
      if IsSpent(p.k, State(), tx.ringSig.keyImage) { return false; }
      for i := 0 to |tx.ringSig.ring|
        invariant forall j :: 0 <= j < i ==> p.k.valid(tx.ringSig.ring[j])
      {
        if !p.k.valid(tx.ringSig.ring[i]) { return false; }
      }
      var distinct := Ring.DistinctKeys(tx.ringSig.ring);
      if !distinct { return false; }
      var amount := RingDenomination(pool, tx.ringSig.ring);
      if amount.None? { return false; }
      var total := SumSpent(tx.publicFee, tx.outputs);
      if total.None? || total.value != amount.value { return false; }
      if tx.txHash != Ring.CanonicalTxHash(p.k, tx.outputs, tx.publicFee, tx.ringSig.ring, tx.ringSig.keyImage) { return false; }
      ok := Ring.VerifyLoop(p.k, tx.txHash, tx.ringSig);
    }

    method SubmitPreSignedTransaction(tx: ShieldedTransaction, timestamp: U64) returns (r: Option<Block>)
      requires Valid() && db.topHeight + 1 < TWO_64
      modifies this, db, vault, ledger
      ensures Valid()
      ensures match Submit(p, old(State()), tx, timestamp)
        case Mined(s, b) => State() == s && r == Some(b)
        case Failed(s) => State() == s && r.None?
    {
      hide SubmitOk, MineBlock, Append;
      var ok := CheckSubmitted(tx);
      if !ok { return None; }
      var b := CommitTransaction(tx, timestamp);
      return Some(b);
    }

    /** Claims change the vault in memory and its record, and no block. */
    method ClaimTreasuryFees(amount: U64, destination: Text) returns (ok: bool)
      requires Valid()
      modifies db, vault
      ensures Valid() && (State(), ok) == Ledger.ClaimFees(old(State()), amount, destination)
    {
      var r := vault.ClaimFees(amount, destination);
      if r.Refused? { return false; }
      db.SaveVaultState(vault.State());
      return true;
    }

    /** The checks made before the vault is touched. */
    method BurnKeys(a: WithdrawArgs) returns (r: Option<(Key256, KeyImage)>)
      ensures r == WithdrawKeys(p, State(), a) && (r.Some? ==> a.tokens <= a.input.amount)
    {
      var address := IsValidEvmAddress(a.destination);
      if !address || !Stealth.ScanOutput(p.k, a.wallet, a.input) { return None; }
      if a.input.amount < a.tokens { return None; }
      var present := Present(pool, a.input);
      if !present { return None; }
      var x := Stealth.DerivePrivateKey(p.k, a.wallet, a.input);
      if x.None? { return None; }
      var image := Ring.KeyImageOf(p.k, x.value, a.input.destination);
      if image.None? || IsSpent(p.k, State(), image.value) { return None; }
      return Some((x.value, image.value));
    }

    /** `withdraw_shielded`: the vault burns before the change and the proof are made. */
    method WithdrawShielded(a: WithdrawArgs) returns (r: Option<Block>)
      requires Valid() && db.topHeight + 1 < TWO_64 && |a.orderBytes| == 16
      modifies this, db, vault, ledger
      ensures Valid()
      ensures match Withdraw(p, old(State()), a)
        case Mined(s, b) => State() == s && r == Some(b)
        case Failed(s) => State() == s && r.None?
    {
      hide WithdrawKeys, WithdrawChange, MineBlock, Append, ToHex, Ring.SignBurn, Ring.BurnMessage;
      var keys := BurnKeys(a);
      if keys.None? { return None; }
      var (x, image) := keys.value;
      var receipt := vault.RequestWithdrawal(a.tokens, a.orderBytes);
      if receipt.Refused? { return None; }
      var outs := WithdrawChange(p.k, a);
      if outs.None? { return None; }
      pool := pool + outs.value;
      var w := receipt.value;
      var m := Ring.BurnMessage(p.k, w.orderId, w.gross, a.destination, ChangeKey(outs.value));
      var proof := Ring.SignBurn(p.k, m, a.input.destination, x, a.alpha);
      if proof.None? { return None; }
      SameImage(p, old(State()), a, m, proof.value);
      w := w.(destination := a.destination, keyImage := image, burnedKey := a.input.destination,
              burnC0 := proof.value.c0, burnS := proof.value.s, changeKey := ChangeKey(outs.value));
      var sections := Block(NO_HEADER, [], [], [w], [], outs.value);
      WithdrawalAppends(p, old(State()), a.tokens, a.timestamp, sections);
      var b := CommitWithdrawal(sections, image, a.timestamp, old(State()).(vault := vault.State()));
      return Some(b);
    }

    method CommitWithdrawal(sections: Block, image: KeyImage, timestamp: U64, ghost s: NodeState) returns (b: Block)
      requires Valid() && db.topHeight + 1 < TWO_64 && State() == s.(pool := s.pool + sections.withdrawalOutputs)
      requires |sections.withdrawals| == 1 && sections.withdrawals[0].keyImage == image
      requires sections.txs == [] && sections.depositOutputs == []
      modifies this, db, vault, ledger
      ensures Valid() && b == MineBlock(p, s, timestamp, sections) && State() == Committed(p, s, b)
    {
      hide MineBlock, CommitTables;
      var _ := ledger.Register(p.k, image);
      var h := Mine(timestamp, sections);
      b := sections.(header := h.Value());
      MineReadsStore(p, s, State(), timestamp, sections);
      WithdrawalTouches(p.k, b);
      db.Commit(p.k, b, vault.State(), b.withdrawalOutputs, [image]);
    }
  }

  lemma WithdrawalTouches(k: Curve, b: Block)
    requires |b.withdrawals| == 1 && b.txs == [] && b.depositOutputs == []
    ensures var image := b.withdrawals[0].keyImage;
      && NewOutputs(b) == b.withdrawalOutputs && Spends(b) == [image]
      && Elements(CanonicalAll(k, Spends(b))) == {Canonical(k, image)}
  {
    assert CanonicalAll(k, [b.withdrawals[0].keyImage]) == [Canonical(k, b.withdrawals[0].keyImage)];
    assert Spends(b) == [b.withdrawals[0].keyImage];
  }

  /** The image in the proof is the one that was looked up. */
  lemma SameImage(p: Params, s: NodeState, a: WithdrawArgs, m: Hash256, proof: Ring.BurnProof)
    requires WithdrawKeys(p, s, a).Some?
    requires Ring.SignBurn(p.k, m, a.input.destination, WithdrawKeys(p, s, a).value.0, a.alpha) == Some(proof)
    ensures proof.keyImage == WithdrawKeys(p, s, a).value.1
  {
  }

  /** The vault after the burn is the one the block leads to. */
  lemma WithdrawalAppends(p: Params, s: NodeState, tokens: U64, timestamp: U64, sections: Block)
    requires s.db.topHeight + 1 < TWO_64 && ApplyWithdrawal(s.vault, p.withdrawBps, tokens).1.Done?
    requires |sections.withdrawals| == 1 && sections.withdrawals[0].gross == tokens && sections.deposits == []
    ensures var b := MineBlock(p, s, timestamp, sections);
      var t := s.(vault := ApplyWithdrawal(s.vault, p.withdrawBps, tokens).0);
      MineBlock(p, t, timestamp, sections) == b && Append(p, s, b) == Committed(p, t, b)
  {
    var b := MineBlock(p, s, timestamp, sections);
    OneWithdrawal(s.vault, p.depositBps, p.withdrawBps, b.withdrawals[0], b);
  }

  lemma TransactionTouches(p: Params, s: NodeState, b: Block, tx: ShieldedTransaction)
    requires b.txs == [tx] && b.deposits == [] && b.withdrawals == [] && b.depositOutputs == [] && b.withdrawalOutputs == []
    ensures NewOutputs(b) == tx.outputs && Spends(b) == [tx.ringSig.keyImage] && NextVault(p, s, b) == Some(s.vault)
    ensures Elements(CanonicalAll(p.k, Spends(b))) == {Canonical(p.k, tx.ringSig.keyImage)}
  {
    assert b.txs[..0] == [];
    assert TxOutputs(b.txs) == [] + tx.outputs == tx.outputs;
    assert Spends(b) == [tx.ringSig.keyImage];
    assert CanonicalAll(p.k, Spends(b)) == [Canonical(p.k, tx.ringSig.keyImage)];
  }

  lemma MineReadsStore(p: Params, s: NodeState, t: NodeState, timestamp: U64, sections: Block)
    requires s.db == t.db && s.db.topHeight + 1 < TWO_64
    ensures MineBlock(p, s, timestamp, sections) == MineBlock(p, t, timestamp, sections)
  {
  }

  lemma MinedSections(p: Params, s: NodeState, timestamp: U64, sections: Block)
    requires s.db.topHeight + 1 < TWO_64
    ensures var b := MineBlock(p, s, timestamp, sections); sections.(header := b.header) == b
  {
    hide NextHeader, HeaderModel.Sign;
  }

  /** The sections packed, signed and cosigned. */
  function DepositBlock(p: Params, s: NodeState, a: BuyArgs, sections: Block): Block
    requires s.db.topHeight + 1 < TWO_64
  {
    var mined := MineBlock(p, s, a.timestamp, sections);
    mined.(header := Cosign(p.k, mined.header, a.cosigners))
  }

  /** The vault after the deposit is the one the block leads to. */
  lemma DepositAppends(p: Params, s: NodeState, a: BuyArgs, sections: Block)
    requires s.db.topHeight + 1 < TWO_64 && ApplyDeposit(s.vault, p.depositBps, a.gross).1.Done?
    requires |sections.deposits| == 1 && sections.deposits[0].gross == a.gross && sections.withdrawals == []
    ensures var b := DepositBlock(p, s, a, sections);
      var t := s.(vault := ApplyDeposit(s.vault, p.depositBps, a.gross).0);
      DepositBlock(p, t, a, sections) == b && Append(p, s, b) == Committed(p, t, b)
  {
    hide MineBlock, Cosign, ApplyDeposit, VaultAfter, CommitDb, CanonicalAll, NewOutputs;
    var b := DepositBlock(p, s, a, sections);
    MineReadsStore(p, s, s.(vault := ApplyDeposit(s.vault, p.depositBps, a.gross).0), a.timestamp, sections);
    MinedSections(p, s, a.timestamp, sections);
    OneDeposit(s.vault, p.depositBps, p.withdrawBps, b.deposits[0], b);
  }

  /** The state after a block has been committed with the vault already in memory. */
  function Committed(p: Params, s: NodeState, b: Block): NodeState {
    NodeState(CommitBlock(p.k, s.db, b, s.vault), s.vault, s.spent + Elements(CanonicalAll(p.k, Spends(b))),
              s.pool + NewOutputs(b), s.history + b.txs)
  }

  lemma DepositTouches(k: Curve, b: Block)
    requires |b.depositOutputs| == 1 && b.txs == [] && b.withdrawals == [] && b.withdrawalOutputs == []
    ensures NewOutputs(b) == [b.depositOutputs[0]] && Spends(b) == [] && CanonicalAll(k, Spends(b)) == []
  {
  }

  method CollectImages(b: Block) returns (images: seq<KeyImage>)
    ensures images == Spends(b)
  {
    images := [];
    for i := 0 to |b.txs|
      invariant images == TxImages(b.txs)[..i]
    {
      images := images + [b.txs[i].ringSig.keyImage];
    }
    for i := 0 to |b.withdrawals|
      invariant images == TxImages(b.txs) + WithdrawalImages(b.withdrawals)[..i]
    {
      images := images + [b.withdrawals[i].keyImage];
    }
  }

  method CollectOutputs(txs: seq<ShieldedTransaction>) returns (outs: seq<OneTimeOutput>)
    ensures outs == TxOutputs(txs)
  {
    outs := [];
    for i := 0 to |txs|
      invariant outs == TxOutputs(txs[..i])
    {
      assert txs[..i + 1][..i] == txs[..i];
      outs := outs + txs[i].outputs;
    }
    assert txs[..|txs|] == txs;
  }

  lemma PrefixOfSpends(k: Curve, b: Block)
    ensures NoDup(CanonicalAll(k, Spends(b))) ==> NoDup(CanonicalAll(k, TxImages(b.txs)))
  {
    if NoDup(CanonicalAll(k, Spends(b))) { ImagesPrefix(k, TxImages(b.txs), Spends(b)); }
  }

  /** The checks after the header's. */
  ghost predicate BodyOk(p: Params, s: NodeState, b: Block) {
    && DepositsOk(p, s, b) && TxsOk(p, s, b) && WithdrawalsOk(p, s, b)
    && NoDup(CanonicalAll(p.k, Spends(b))) && NextVault(p, s, b).Some?
  }
}
