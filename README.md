# rps_game: model of the game-record initialisation

This project models the one piece of logic in the rock-paper-scissors
program, `programs/rps_game/src/lib.rs`:

- the game record `GameState` is stored in each game account. Its fields are
  the creator's key, an optional opponent key, the creator's and the joiner's
  32-byte hashed moves, a `u64` wager and a status.
- the status enum `GameStatus` has exactly three variants: `Open`,
  `Committed` and `Ended`.
- the `create_game` instruction fills in that record, one field at a time,
  on the mutable game account.
- the byte budget `GameState::MAX_SIZE` of the record, and the account
  space `8 + MAX_SIZE`.

Everything is in `rps_game.dfy`, module `RpsGame`:

- `GameRecord` is the record as a value and `GameState` is the mutable
  account. `GameState.Value()` reads the account's fields as a `GameRecord`.
- keys and hashes are 32-byte sequences (`Bytes32`). The wager is an integer
  in `[0, 2^64)` (`U64`). The all-zero array `[0u8; 32]` is `Zeros(32)`.
- `CreateGame` is a method whose `modifies` clause names the account. Its
  postcondition states the whole new state of the account, and that the
  handler returns `Ok`.
- the byte budget is a list of per-field budgets (`FIELD_BUDGETS`). These
  are the sizes written next to each term of `MAX_SIZE`. `FieldSizes(g)`
  gives the bytes each field of a concrete record takes. An absent opponent
  takes only its one tag byte; a present one takes 1 + 32 bytes.
  `UsedSize(g)` is their sum. The lemmas show that every record fits the
  budget, and that a record fills it exactly when an opponent is recorded.

The signer's key `*ctx.accounts.creator.key` is a parameter of `CreateGame`.
The framework checks the signature before the handler runs.

A fuller game is described for this program: join, reveal, commitment
checks, payout with a house fee, and a `create` that refuses a zero wager
with `InvalidWager` and escrows the stake. The code does none of this, and
this model follows the code. So `CreateGame` accepts every `u64` wager,
including 0. It has no error path. It moves no funds.

## Model

| member | source | states |
|---|---|---|
| `RpsGame.CreateGame` | programs/rps_game/src/lib.rs:13-30 | Whatever the account held before, afterwards: the creator is the signer's key; no opponent is recorded; the creator's hashed move is the argument byte for byte; the joiner's hashed move is all zero; the wager is the argument unchanged; the status is `Open`. The record awaits an opponent, uses 32 bytes less than `MAX_SIZE`, and the handler returns `Ok` for every wager. |
| `RpsGame.GameState.constructor` | programs/rps_game/src/lib.rs:66-67 | A newly allocated account, all zero bytes, reads back as zero keys and hashes, no opponent, wager 0 and the first status variant. |
| `RpsGame.Zeros` | programs/rps_game/src/lib.rs:24 | `[0u8; n]` has length `n`, and every byte of it is zero. |
| `RpsGame.StatusIsOneOfThree` | programs/rps_game/src/lib.rs:46-50 | Every status is `Open`, `Committed` or `Ended`, and these three are distinct. |
| `RpsGame.StatusIndex` | programs/rps_game/src/lib.rs:59 | A status's variant index fits in the single byte budgeted for it. |
| `RpsGame.StatusIndexInjective` | programs/rps_game/src/lib.rs:45-50 | Two statuses have the same index exactly when they are the same status, so one byte tells the three apart. |
| `RpsGame.Sum` | programs/rps_game/src/lib.rs:54-59 | A total of field sizes is at least each single field's size. |
| `RpsGame.SumMonotone` | programs/rps_game/src/lib.rs:54-59 | If each field takes at most its budget, the total is at most the total budget. The two totals are equal exactly when every field uses its full budget. |
| `RpsGame.SumOfSixFields` | programs/rps_game/src/lib.rs:54-59 | The total of the six field sizes is their plain six-term sum. |
| `RpsGame.MaxSizeIsSumOfBudgets` | programs/rps_game/src/lib.rs:53-66 | `MAX_SIZE` = 32 + (1+32) + 32 + 32 + 8 + 1 = 138, the sum of the per-field budgets. The allocated space 8 + `MAX_SIZE` is 146. |
| `RpsGame.BudgetsFitFieldTypes` | programs/rps_game/src/lib.rs:35-59 | Each budget fits its field's type. Every `u64` wager is below 256^8. Every status index is below 256^1. Every key and hash is 32 bytes, and so is a present opponent key. |
| `RpsGame.UsedSizeWithinBudget` | programs/rps_game/src/lib.rs:35-60 | Every record needs at most `MAX_SIZE` bytes. It needs exactly `MAX_SIZE` bytes if and only if an opponent is recorded. |
| `RpsGame.AwaitingOpponentSize` | programs/rps_game/src/lib.rs:21-26 | A record that is open, has no opponent and has a zeroed joiner hash (the state `create_game` leaves) needs `MAX_SIZE` − 32 = 106 bytes, strictly less than the maximum. |

## Left out

- Program identity (`declare_id!`) and the framework macros `#[program]`, `#[account]` and `#[derive(Accounts)]`. These belong to the framework, and the handler only relies on them.
- Account creation behind `init`, `payer = creator` and `system_program`: paying for the account, rent, and placing the discriminator. The constructor models only the zero-filled account that the handler receives. The model never reads those prior contents.
- Signature verification of the creator. The runtime performs it before the handler runs, so the signer's key is a plain parameter.
- Serialisation of the record and of `GameStatus` (`AnchorSerialize`, `AnchorDeserialize`). This is a foreign library. Only the declared byte budget, and the sizes that its comments give each field, are modelled.
- Moving the stake into escrow. The source has only a TODO comment for this (lib.rs:28), so there is nothing to model.
- Joining, revealing, commitment checking, winner selection and payout. None of these exist in the source. The hashed moves are opaque 32-byte values that the program never computes or checks.
- Errors raised by the framework before the handler runs, such as an account that already exists or an unfunded payer. The handler itself always returns `Ok`.
