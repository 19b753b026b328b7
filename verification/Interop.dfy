// Addresses, Solidity's and Go's unsigned integers, and the record by which a contract on one chain
// refers to a log of another.
module Interop {
  type Address = nat

  const ZERO: Address := 0
  const UINT256_MAX: nat := 0xffff_ffff_ffff_ffff_ffff_ffff_ffff_ffff_ffff_ffff_ffff_ffff_ffff_ffff_ffff_ffff

  const TWO64: nat := 0x1_0000_0000_0000_0000

  // Go's uint64
  type U64 = x: nat | x < TWO64

  datatype Identifier = Identifier(origin: Address, blockNumber: nat, logIndex: nat, timestamp: nat, chainId: nat)
}
