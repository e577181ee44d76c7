/** Simulation constants and resource limits (internal/config/config.go).
    `runtime.NumCPU()` is a parameter. Durations are nanoseconds. */
module Configuration {

  const TotalBidders: nat := 100
  const TotalAuctions: nat := 40
  const AttributesPerAuction: nat := 20
  const Second: int := 1_000_000_000
  const DefaultTimeout: int := 2 * Second

  const DefaultMaxVCPUs: int := 2
  const DefaultMaxMemoryMB: int := 1024
  const MaxConcurrentBiddersPerCPU: int := 100

  datatype ResourceLimits = ResourceLimits(maxVCPUs: int, maxMemoryMB: int, maxConcurrentBidders: int)

  /** The counts are naturals: the managers size their slices with them, and
      Go's `make` panics on a negative size. */
  datatype Config = Config(
    totalAuctions: nat,
    totalBidders: nat,
    attributesPerAuction: nat,
    auctionTimeout: int,
    resourceLimits: ResourceLimits)

  /** CPUs are capped at two, and concurrent bidders at 100 per CPU but never
      more than one per (bidder, auction) pair of the built-in constants. */
  function CalculateResourceLimits(numCPU: int): (r: ResourceLimits)
    ensures r.maxVCPUs <= numCPU && r.maxVCPUs <= DefaultMaxVCPUs
    ensures r.maxVCPUs == numCPU || r.maxVCPUs == DefaultMaxVCPUs
    ensures r.maxConcurrentBidders <= r.maxVCPUs * MaxConcurrentBiddersPerCPU
    ensures r.maxConcurrentBidders <= TotalBidders * TotalAuctions
    ensures r.maxConcurrentBidders == r.maxVCPUs * MaxConcurrentBiddersPerCPU
         || r.maxConcurrentBidders == TotalBidders * TotalAuctions
    ensures r.maxMemoryMB == DefaultMaxMemoryMB
    ensures numCPU >= 1 ==> r.maxVCPUs >= 1 && r.maxConcurrentBidders >= 1
  {
    var availableCPUs := if numCPU > DefaultMaxVCPUs then DefaultMaxVCPUs else numCPU;
    var maxConcurrent := availableCPUs * MaxConcurrentBiddersPerCPU;
    var capped := if maxConcurrent > TotalBidders * TotalAuctions then TotalBidders * TotalAuctions else maxConcurrent;
    ResourceLimits(availableCPUs, DefaultMaxMemoryMB, capped)
  }

  /** The built-in configuration: 40 auctions, 100 bidders, 20 attributes
      per auction, a two-second timeout, and the computed limits. */
  function DefaultConfig(numCPU: int): (c: Config)
    ensures c.totalAuctions == 40 && c.totalBidders == 100 && c.attributesPerAuction == 20
    ensures c.auctionTimeout == 2_000_000_000
    ensures c.resourceLimits == CalculateResourceLimits(numCPU)
  {
    Config(TotalAuctions, TotalBidders, AttributesPerAuction, DefaultTimeout, CalculateResourceLimits(numCPU))
  }
}
