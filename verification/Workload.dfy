/** The entities of the CBDC workload: parameters, coins, transfers and the ledger of expected values. */
module Workload {
  import opened Common

  /** A coin id together with a value. */
  datatype Coin = Coin(id: nat, value: nat)

  /** What one wallet contributes to, or gets from, a transfer. */
  datatype Share = Share(wallet: nat, coins: seq<Coin>)

  datatype Transfer = Transfer(senders: seq<Share>, receivers: seq<Share>)

  const NO_TRANSFER := Transfer([], [])

  /** A position of the ledger: a wallet and a coin. */
  type Key = (nat, nat)
  type Ledger = map<Key, nat>

  function Held(l: Ledger, k: Key): nat {
    if k in l then l[k] else 0
  }

  datatype Params = Params(
    wallets: nat,    // num_wallets
    coins: nat,      // coins_per_wallet
    rounds: nat,     // transfers_per_wallet
    senders: nat,    // senders_per_transfer
    receivers: nat,  // receivers_per_transfer
    initial: nat,    // coin_initial_value
    amount: nat,     // transfer_value
    seed: nat        // random_seed
  ) {
    /** With no wallet per transfer the generator would emit empty transfers for ever. */
    predicate Valid() {
      senders + receivers >= 1 && initial < TWO_32 && amount < TWO_32
    }

    function Size(): nat {
      senders + receivers
    }

    /** What each sender pays: the product is truncated to 32 bits when it is stored. */
    function Debit(): nat {
      amount * receivers % TWO_32
    }

    /** What each receiver gets of each coin. */
    function Credit(): nat {
      if receivers == 0 then 0 else Debit() / receivers
    }

    /** Wallet `w` mints the coins `w * coins` up to `(w + 1) * coins`. */
    predicate Owns(w: nat, id: nat) {
      w < wallets && w * coins <= id < w * coins + coins
    }

    /** The coins of wallet `w`, in the order in which they are minted. */
    function Minted(w: nat): seq<Coin> {
      seq(coins, (j: nat) => Coin(w * coins + j, initial))
    }
  }

  /** The ledger after the coins with an id below `next` have been minted. */
  function MintedBelow(p: Params, next: nat): Ledger {
    map x: nat, id: nat | x < p.wallets && x * p.coins <= id < x * p.coins + p.coins && id < next :: (x, id) := p.initial
  }

  function Mint(p: Params): Ledger {
    MintedBelow(p, p.wallets * p.coins)
  }

  /** The wallets below `n`, with their coins; without coins no wallet is ever created. */
  function WalletsBelow(p: Params, n: nat): map<nat, seq<Coin>> {
    map w: nat | w < n && p.coins > 0 :: p.Minted(w)
  }

  function MintedWallets(p: Params): map<nat, seq<Coin>> {
    WalletsBelow(p, p.wallets)
  }

  lemma NextWallet(p: Params, n: nat)
    ensures n !in WalletsBelow(p, n)
    ensures WalletsBelow(p, n + 1) == if p.coins > 0 then WalletsBelow(p, n)[n := p.Minted(n)] else WalletsBelow(p, n)
  {
  }

  lemma NextMinted(p: Params, w: nat, j: nat)
    requires j < p.coins
    ensures p.Minted(w)[..j + 1] == p.Minted(w)[..j] + [Coin(w * p.coins + j, p.initial)]
    ensures p.Minted(w)[..p.coins] == p.Minted(w)
  {
  }

  lemma OwnersDisjoint(p: Params, x: nat, y: nat, id: nat)
    requires x < y && p.Owns(x, id)
    ensures !p.Owns(y, id)
  {
    NextMultiple(x, y, p.coins);
  }

  lemma OwnersDisjointBelow(p: Params, x: nat, y: nat, id: nat)
    requires x < y && p.Owns(y, id)
    ensures !p.Owns(x, id)
  {
    NextMultiple(x, y, p.coins);
  }

  /** A coin has one owner. */
  lemma OwnerUnique(p: Params, x: nat, y: nat, id: nat)
    requires p.Owns(x, id) && p.Owns(y, id)
    ensures x == y
  {
    if x < y {
      OwnersDisjoint(p, x, y, id);
    } else if y < x {
      OwnersDisjointBelow(p, y, x, id);
    }
  }

  lemma OwnedBelow(p: Params, x: nat, id: nat)
    requires p.Owns(x, id)
    ensures id < p.wallets * p.coins
  {
    NextMultiple(x, p.wallets, p.coins);
  }

  lemma MintedBelowHolds(p: Params, next: nat, x: nat, id: nat)
    ensures (x, id) in MintedBelow(p, next) <==> p.Owns(x, id) && id < next
    ensures (x, id) in MintedBelow(p, next) ==> MintedBelow(p, next)[(x, id)] == p.initial
  {
  }

  lemma MintHolds(p: Params, x: nat, id: nat)
    ensures (x, id) in Mint(p) <==> p.Owns(x, id)
    ensures Held(Mint(p), (x, id)) == if p.Owns(x, id) then p.initial else 0
  {
    hide MintedBelow, Params.Owns;
    MintedBelowHolds(p, p.wallets * p.coins, x, id);
    if p.Owns(x, id) {
      OwnedBelow(p, x, id);
    }
  }

  lemma MintedByOwner(p: Params, w: nat, id: nat, x: nat)
    requires p.Owns(w, id)
    ensures Held(Mint(p), (x, id)) == if x == w then p.initial else 0
  {
    MintHolds(p, x, id);
    if x < w {
      OwnersDisjointBelow(p, x, w, id);
    } else if w < x {
      OwnersDisjoint(p, w, x, id);
    }
  }

  /** Minting the next coin of wallet `w` extends the ledger by one key. */
  lemma MintOne(p: Params, w: nat, j: nat)
    requires w < p.wallets && j < p.coins
    ensures var id := w * p.coins + j;
            && (w, id) !in MintedBelow(p, id)
            && MintedBelow(p, id + 1) == MintedBelow(p, id)[(w, id) := p.initial]
  {
    hide MintedBelow, Params.Owns;
    var id := w * p.coins + j;
    MintedHere(p, w, j);
    var a, b := MintedBelow(p, id + 1), MintedBelow(p, id)[(w, id) := p.initial];
    forall k: Key ensures (k in a <==> k in b) && (k in a ==> a[k] == b[k]) {
      MintedBelowHolds(p, id + 1, k.0, k.1);
      MintedBelowHolds(p, id, k.0, k.1);
      if k.1 == id && p.Owns(k.0, id) {
        OwnerUnique(p, k.0, w, id);
      }
    }
    MintedBelowHolds(p, id, w, id);
    assert a == b;
  }

  lemma MintedHere(p: Params, w: nat, j: nat)
    requires w < p.wallets && j < p.coins
    ensures p.Owns(w, w * p.coins + j)
  {
  }
}
