/**
 * The OpenFlow metadata register as the agent encodes a local network into it:
 * a (value, mask) pair. The metadata field is 64 bits wide in OpenFlow 1.3
 * (section 7.2.3.7 of the OpenFlow Switch Specification 1.3), so the pair is
 * modelled as two bv64 values.
 */
module Metadata {

  /** Bits of the metadata register that carry the local network tag. */
  const NETWORK_MASK: bv64 := 0xfff

  /** Flag: the packet came from a local VM port. */
  const LOCAL: bv64 := 0x10000

  datatype MetadataPair = MetadataPair(value: bv64, mask: bv64)

  /**
   * The (value, mask) pair for `network` with `flags` set: the mask covers
   * every flag bit and every bit of NETWORK_MASK, and the value carries every
   * flag bit and every bit of the network.
   */
  function MkMetadata(network: bv64, flags: bv64): (r: MetadataPair)
    ensures r.mask & (flags | NETWORK_MASK) == flags | NETWORK_MASK
    ensures r.value & (flags | network) == flags | network
  {
    MetadataPair(flags | network, flags | NETWORK_MASK)
  }

  /** With the default flags (none) the pair is (network, NETWORK_MASK). */
  lemma DefaultFlags(network: bv64)
    ensures MkMetadata(network, 0) == MetadataPair(network, NETWORK_MASK)
  {
  }

  /** The mask depends on the flags only, never on the network. */
  lemma MaskIndependentOfNetwork(n1: bv64, n2: bv64, flags: bv64)
    ensures MkMetadata(n1, flags).mask == MkMetadata(n2, flags).mask
  {
  }

  /** The LOCAL flag is set in both the value and the mask. */
  lemma LocalFlagSet(network: bv64)
    ensures MkMetadata(network, LOCAL).value & LOCAL == LOCAL
    ensures MkMetadata(network, LOCAL).mask & LOCAL == LOCAL
  {
  }

  /**
   * A network that fits in NETWORK_MASK is matched exactly by its own pair
   * (value & mask == value), whatever the flags.
   */
  lemma SmallNetworkMatchesItself(network: bv64, flags: bv64)
    requires network <= NETWORK_MASK
    ensures MkMetadata(network, flags).value & MkMetadata(network, flags).mask
            == MkMetadata(network, flags).value
  {
  }
}
