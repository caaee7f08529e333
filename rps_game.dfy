/** Model of the rock-paper-scissors program: the game record stored in each
    game account, its status enum, the `create_game` instruction that fills in
    a freshly allocated record, and the record's declared byte budget. */
module RpsGame {

  /** An unsigned byte, `u8`. */
  type Byte = x: int | 0 <= x < 256

  /** A fixed-size 32-byte array, `[u8; 32]`. */
  type Bytes32 = s: seq<Byte> | |s| == 32 witness Zeros(32)

  /** The repeat array `[0u8; n]`: `n` bytes, each of them zero. */
  function Zeros(n: nat): (s: seq<Byte>)
    ensures |s| == n
    ensures forall i :: 0 <= i < n ==> s[i] == 0
  {
    if n == 0 then [] else [0] + Zeros(n - 1)
  }

  /** A public key is 32 opaque bytes; no key is ever inspected by the program. */
  type Pubkey = Bytes32

  /** `u64`: every value the wager field can hold. */
  const U64_LIMIT: int := 0x1_0000_0000_0000_0000
  type U64 = x: int | 0 <= x < U64_LIMIT

  /** The all-zero 32-byte array `[0u8; 32]`. */
  const ZERO_32: Bytes32 := Zeros(32)

  datatype Option<T> = None | Some(value: T)

  /** The handler's `Result<()>`: it either succeeds or fails with an error. */
  datatype Outcome = Ok | Err

  /** The closed set of states a game can be in. */
  datatype GameStatus =
    | Open       // open and waiting for an opponent
    | Committed  // both players have committed their moves
    | Ended      // the game is over

  /** The value held by a game account, field for field. */
  datatype GameRecord = GameRecord(
    creator: Pubkey,
    opponent: Option<Pubkey>,
    creatorMoveHashed: Bytes32,
    joinerMoveHashed: Bytes32,
    wager: U64,
    status: GameStatus)

  /** A record that nobody has joined: open, with no opponent recorded and
      the joiner's hashed move still zeroed out. */
  predicate AwaitingOpponent(g: GameRecord)
  {
    g.status == Open && g.opponent == None && g.joinerMoveHashed == ZERO_32
  }

  /** The mutable game account that the instruction writes field by field. */
  class GameState {
    var creator: Pubkey
    var opponent: Option<Pubkey>
    var creatorMoveHashed: Bytes32
    var joinerMoveHashed: Bytes32
    var wager: U64
    var status: GameStatus

    /** The record the account currently holds. */
    function Value(): GameRecord
      reads this
    {
      GameRecord(creator, opponent, creatorMoveHashed, joinerMoveHashed, wager, status)
    }

    /** A newly allocated account: its data is all zero bytes, which reads
        back as zero keys and hashes, no opponent, a zero wager and the
        first status variant. */
    constructor ()
      ensures Value() == GameRecord(ZERO_32, None, ZERO_32, ZERO_32, 0, Open)
    {
      creator := ZERO_32;
      opponent := None;
      creatorMoveHashed := ZERO_32;
      joinerMoveHashed := ZERO_32;
      wager := 0;
      status := Open;
    }
  }

  /** The `create_game` instruction. `creator` is the key of the signing
      creator account. Whatever the account held before, it afterwards holds
      the creator, the creator's hashed move and the wager exactly as given,
      and awaits an opponent. No wager is refused: the handler always
      succeeds. */
  method CreateGame(game: GameState, creator: Pubkey, creatorMoveHashed: Bytes32, wager: U64)
    returns (r: Outcome)
    modifies game
    ensures r == Ok
    ensures game.creator == creator
    ensures game.opponent == None
    ensures game.creatorMoveHashed == creatorMoveHashed
    ensures game.joinerMoveHashed == ZERO_32
    ensures game.wager == wager
    ensures game.status == Open
    ensures AwaitingOpponent(game.Value())
    ensures UsedSize(game.Value()) == MAX_SIZE - PUBKEY_SIZE
  {
    game.creator := creator;
    game.opponent := None;
    game.creatorMoveHashed := creatorMoveHashed;
    game.joinerMoveHashed := ZERO_32;
    game.wager := wager;
    game.status := Open;
    AwaitingOpponentSize(game.Value());
    r := Ok;
  }

  lemma StatusIsOneOfThree(s: GameStatus)
    ensures s == Open || s == Committed || s == Ended
    ensures Open != Committed && Committed != Ended && Open != Ended
  {
  }

  // ---------------------------------------------------------------------
  // Byte budget of the record

  /** Sizes in bytes of the field kinds the record is built from. */
  const PUBKEY_SIZE: nat := 32
  const HASH_SIZE: nat := 32
  const U64_SIZE: nat := 8
  const OPTION_TAG_SIZE: nat := 1
  const ENUM_TAG_SIZE: nat := 1

  /** `GameState::MAX_SIZE`, written as the sum of the per-field sizes. */
  const MAX_SIZE: nat := 32 + (1 + 32) + 32 + 32 + 8 + 1

  /** The account discriminator that precedes the record. */
  const DISCRIMINATOR_SIZE: nat := 8

  /** The `space` allocated for a game account. */
  const ACCOUNT_SPACE: nat := DISCRIMINATOR_SIZE + MAX_SIZE

  /** The largest number of bytes each field can take, in declaration order. */
  const FIELD_BUDGETS: seq<nat> :=
    [PUBKEY_SIZE, OPTION_TAG_SIZE + PUBKEY_SIZE, HASH_SIZE, HASH_SIZE, U64_SIZE, ENUM_TAG_SIZE]

  function Pow(base: nat, n: nat): nat
  {
    if n == 0 then 1 else base * Pow(base, n - 1)
  }

  /** Sum of a list of sizes; no single entry exceeds it. */
  function Sum(s: seq<nat>): (r: nat)
    ensures forall i :: 0 <= i < |s| ==> s[i] <= r
  {
    if s == [] then 0
    else
      assert forall i :: 1 <= i < |s| ==> s[i] == s[1..][i - 1];
      s[0] + Sum(s[1..])
  }

  /** The index of a status variant, the value of its one tag byte. */
  function StatusIndex(s: GameStatus): (i: nat)
    ensures i < Pow(256, ENUM_TAG_SIZE)
  {
    match s
    case Open => 0
    case Committed => 1
    case Ended => 2
  }

  /** Bytes an optional key takes: a tag byte, then the key only when present. */
  function OptionPubkeySize(o: Option<Pubkey>): nat
  {
    OPTION_TAG_SIZE + (match o case Some(k) => |k| case None => 0)
  }

  /** Bytes each field of `g` takes, in declaration order. */
  function FieldSizes(g: GameRecord): seq<nat>
  {
    [|g.creator|, OptionPubkeySize(g.opponent), |g.creatorMoveHashed|,
     |g.joinerMoveHashed|, U64_SIZE, ENUM_TAG_SIZE]
  }

  /** Bytes the whole record `g` takes. */
  function UsedSize(g: GameRecord): nat
  {
    Sum(FieldSizes(g))
  }

  /** A list of sizes bounded entry by entry by another has no larger sum,
      and the sums agree only when the lists do. */
  lemma {:induction false} SumMonotone(a: seq<nat>, b: seq<nat>)
    requires |a| == |b|
    requires forall i :: 0 <= i < |a| ==> a[i] <= b[i]
    ensures Sum(a) <= Sum(b)
    ensures Sum(a) == Sum(b) <==> a == b
  {
    if a != [] {
      var ta, tb := a[1..], b[1..];
      forall i | 0 <= i < |ta|
        ensures ta[i] <= tb[i]
      {
        assert ta[i] == a[i + 1] && tb[i] == b[i + 1];
      }
      SumMonotone(ta, tb);
      if Sum(a) == Sum(b) {
        assert a[0] == b[0] && ta == tb;
        assert a == [a[0]] + ta && b == [b[0]] + tb;
      }
    }
  }

  /** `MAX_SIZE` is the sum of the field budgets, 138 bytes, and the allocated
      space is 146 bytes. */
  lemma MaxSizeIsSumOfBudgets()
    ensures Sum(FIELD_BUDGETS) == MAX_SIZE == 138
    ensures ACCOUNT_SPACE == 146
  {
    SumOfSixFields(FIELD_BUDGETS);
  }

  /** Sum of a six-entry list, entry by entry. */
  lemma SumOfSixFields(s: seq<nat>)
    requires |s| == 6
    ensures Sum(s) == s[0] + s[1] + s[2] + s[3] + s[4] + s[5]
  {
    assert Sum(s[5..]) == s[5] by { assert s[5..][1..] == []; }
    assert Sum(s[4..]) == s[4] + Sum(s[5..]) by { assert s[4..][1..] == s[5..]; }
    assert Sum(s[3..]) == s[3] + Sum(s[4..]) by { assert s[3..][1..] == s[4..]; }
    assert Sum(s[2..]) == s[2] + Sum(s[3..]) by { assert s[2..][1..] == s[3..]; }
    assert Sum(s[1..]) == s[1] + Sum(s[2..]) by { assert s[1..][1..] == s[2..]; }
  }

  /** The budgets cover what the field types can hold: a wager in 8 bytes,
      a status in its single tag byte, and 32 bytes for each key and hash. */
  lemma BudgetsFitFieldTypes(g: GameRecord)
    ensures g.wager < Pow(256, U64_SIZE)
    ensures StatusIndex(g.status) < Pow(256, ENUM_TAG_SIZE)
    ensures |g.creator| == PUBKEY_SIZE && |g.creatorMoveHashed| == HASH_SIZE
    ensures |g.joinerMoveHashed| == HASH_SIZE
    ensures g.opponent.Some? ==> |g.opponent.value| == PUBKEY_SIZE
  {
  }

  /** Every record fits in `MAX_SIZE` bytes, and fills it exactly when an
      opponent is recorded. */
  lemma UsedSizeWithinBudget(g: GameRecord)
    ensures UsedSize(g) <= MAX_SIZE
    ensures UsedSize(g) == MAX_SIZE <==> g.opponent.Some?
  {
    var sizes := FieldSizes(g);
    assert forall i :: 0 <= i < |sizes| ==> sizes[i] <= FIELD_BUDGETS[i];
    SumMonotone(sizes, FIELD_BUDGETS);
    MaxSizeIsSumOfBudgets();
    assert sizes == FIELD_BUDGETS <==> g.opponent.Some? by {
      if g.opponent.None? {
        assert sizes[1] != FIELD_BUDGETS[1];
      }
    }
  }

  /** A record awaiting an opponent takes 32 bytes less than the budget: the
      space reserved for the opponent's key is unused. */
  lemma AwaitingOpponentSize(g: GameRecord)
    requires AwaitingOpponent(g)
    ensures UsedSize(g) == MAX_SIZE - PUBKEY_SIZE < MAX_SIZE
  {
    SumOfSixFields(FieldSizes(g));
  }

  /** Distinct statuses have distinct tag bytes. */
  lemma StatusIndexInjective(s: GameStatus, t: GameStatus)
    ensures StatusIndex(s) == StatusIndex(t) <==> s == t
  {
  }
}
