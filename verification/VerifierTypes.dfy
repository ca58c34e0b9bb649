/** Values shared by the verifier pallet: accounts, the committed state tree and its leaves. */
module VerifierTypes {
  import opened FixedPoint
  import opened MapSums

  /** Account and token identifiers are opaque names; only equality matters. */
  type Account = int
  type Token = int

  datatype Error =
    | DominatorNotFound
    | DominatorAlreadyExists
    | DominatorInactive
    | DominatorStatusInvalid
    | TooEarlyToRegister
    | ProofsUnsatisfied
    | ReceiptNotExists
    | ReceiptAlreadyExists
    | InsufficientBalance
    | Overflow
    | InvalidStaking
    | LittleStakingAmount
    | UnsupportedQuoteCurrency
    | FeesTooHigh

  /** A tree value: two little-endian u128 halves. For an account: available and frozen. */
  datatype Pair = Pair(left: nat, right: nat) {
    function Total(): nat { left + right }
  }

  /** A decoded leaf key. `OtherKey` stands for every byte string the decoders refuse. */
  datatype Key =
    | AccountKey(token: Token, who: Account)
    | BookKey(base: Token, quote: Token)
    | BestPriceKey(base: Token, quote: Token)
    | PageKey(base: Token, quote: Token, price: nat)
    | OtherKey(bytes: seq<nat>)

  datatype Leaf = Leaf(key: Key, before: Pair, after: Pair) {
    function Change(): int { after.Total() - before.Total() }

    predicate SumsFit() { Fits(before.Total()) && Fits(after.Total()) }

    predicate Holds(t: Token) { key.AccountKey? && key.token == t }

    predicate IsSymbol(b: Token, q: Token) {
      (key.BookKey? || key.BestPriceKey?) && key.base == b && key.quote == q
    }

    predicate IsPage(b: Token, q: Token) { key.PageKey? && key.base == b && key.quote == q }

    function PagePrice(): nat { if key.PageKey? then key.price else 0 }
  }

  /** A Merkle root stands for the map it commits to; an absent key holds (0, 0). */
  type Tree = map<Key, Pair>

  function Look(tree: Tree, k: Key): Pair {
    if k in tree then tree[k] else Pair(0, 0)
  }

  function Updated(tree: Tree, leaves: seq<Leaf>): Tree {
    if leaves == [] then tree
    else
      var n := |leaves| - 1;
      Updated(tree, leaves[..n])[leaves[n].key := leaves[n].after]
  }

  predicate DistinctKeys(leaves: seq<Leaf>) {
    forall i, j :: 0 <= i < j < |leaves| ==> leaves[i].key != leaves[j].key
  }

  /** A compiled proof is accepted against a root exactly when the old leaves are in the tree. */
  predicate Proves(tree: Tree, leaves: seq<Leaf>) {
    && DistinctKeys(leaves)
    && forall i :: 0 <= i < |leaves| ==> Look(tree, leaves[i].key) == leaves[i].before
  }

  lemma {:induction false} UpdatedElsewhere(tree: Tree, leaves: seq<Leaf>, k: Key)
    requires forall i :: 0 <= i < |leaves| ==> leaves[i].key != k
    ensures Look(Updated(tree, leaves), k) == Look(tree, k)
  {
    if leaves != [] {
      UpdatedElsewhere(tree, leaves[..|leaves| - 1], k);
    }
  }

  lemma {:induction false} UpdatedAt(tree: Tree, leaves: seq<Leaf>, i: nat)
    requires i < |leaves| && DistinctKeys(leaves)
    ensures Look(Updated(tree, leaves), leaves[i].key) == leaves[i].after
  {
    var n := |leaves| - 1;
    if i < n {
      UpdatedAt(tree, leaves[..n], i);
    }
  }

  datatype ReserveId = Staked | Authorized | Stashed | PendingUnstake

  datatype ReserveKey = ReserveKey(id: ReserveId, who: Account, token: Token, holder: Account)

  type Reserves = map<ReserveKey, nat>

  const PRECISION_SLACK: nat := 100_000_000_000

  function AuthorizedKey(who: Account, token: Token, dominator: Account): ReserveKey {
    ReserveKey(Authorized, who, token, dominator)
  }

  /** `has_authorized_exactly_on`: the ledger agrees with the tree up to lost precision. */
  predicate AuthorizedNear(reserves: Reserves, who: Account, token: Token, dominator: Account, amount: nat) {
    Abs(Get(reserves, AuthorizedKey(who, token, dominator)) - amount) <= PRECISION_SLACK
  }
}
