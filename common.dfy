/** Shared vocabulary of the two vow ledgers: identities, token ids, the
    revert reasons the contracts raise, and the slice of the Lost Poets
    registry that the ledgers read and move. */
module Common {

  /** An account address; 0 is the zero address. */
  type Address = nat

  /** A Lost Poets token id. */
  type TokenId = nat

  const ZERO_ADDRESS: Address := 0

  /** One SILENCE in wei (the reward token has 18 decimals). */
  const WAD: nat := 1_000_000_000_000_000_000

  /** Seconds in one day. */
  const DAY: nat := 86_400

  /** Why a call reverts. The comment gives the revert string. */
  datatype Error =
    | NonexistentToken  // "nonexistent token" (raised by the registry's ownerOf)
    | NotTokenOwner     // "!tokenOwner"
    | NotMute           // "!mute"
    | NoVow             // "!vow"
    | NotVowOwner       // "!owner" (MutePoets)
    | NotOwner          // "caller is not the owner" (the contract's admin check)
    | NoProposal        // "!proposal"
    | TimelockActive    // "timelock"
    | NotOrigin         // "!origin"
    | NotPoet           // "!poet"
    | NotInCustody      // the registry refuses to move a token its sender does not hold

  datatype Result<T> = Ok(value: T) | Err(error: Error)

  /** What the registry knows about one poet: who holds it, whether it is an
      Origin poet, and how many words it carries (a mute poet has none). */
  datatype Poet = Poet(holder: Address, origin: bool, words: nat)
}
