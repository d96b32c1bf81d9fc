// Constants of the chain. Source: libraries/chain/include/graphene/chain/config.hpp:35-64.
module Config {
  const MAX_SHARE_SUPPLY: nat := 1_000_000_000_000
  const HUNDRED_PERCENT: nat := 10000
}
