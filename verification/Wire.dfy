/** Values that travel between the operator programs, the database and the chain. */
module Wire {
  import opened Options

  type Account = string

  /** A contract address is either fixed in advance or the one a creation from
      `creator` at `nonce` yields. */
  datatype Address = Known(text: string) | Created(creator: Account, nonce: nat)

  /** An argument word. A digest stands for the text it was taken from. */
  datatype Word = Text(text: string) | Number(n: nat) | At(address: Address) | Digest(text: string)

  /** Calldata: the code or selector, then its encoded arguments. */
  datatype Data = Data(head: string, words: seq<Word>)

  /** A signed transaction. `fees` stands for the gas limit and prices, which the
      provider chooses anew at every signing. */
  datatype Raw = Raw(from: Account, nonce: nat, to: Option<Address>, data: Data, value: nat, fees: nat)

  /** Hashing is injective on signed bytes. */
  datatype Hash = Keccak(raw: Raw)

  /** A journal key. */
  type Id = string

  /** What `k` creations of one account yield, from nonce `base`. */
  function Addresses(owner: Account, base: nat, k: nat): seq<Address> {
    seq(k, i requires 0 <= i < k => Created(owner, base + i))
  }
}
