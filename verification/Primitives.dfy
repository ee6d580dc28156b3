/** rToken symbols and their chains (node/primitives). */
module Primitives {
  datatype RSymbol = RFIS | RDOT | RKSM | RATOM | RSOL | RMATIC | RBNB | RETH

  datatype ChainType = Substrate | Tendermint | Solana | Ethereum

  function ChainOf(s: RSymbol): ChainType
  {
    match s
    case RFIS | RDOT | RKSM => Substrate
    case RATOM => Tendermint
    case RSOL => Solana
    case RMATIC | RBNB | RETH => Ethereum
  }
}
