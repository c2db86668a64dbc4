/** processor/basicstatsprocessor/config.go: the processor's configuration
    and its `Validate`, which keeps only the statistics the processor knows,
    in order and with repeats, and refuses a configuration left with none. */
module ProcessorConfig {
  import opened Common

  /** The names `PushValue` answers. */
  const Allowed: seq<string> := ["count", "diff", "rate", "min", "max", "mean",
                                 "non_negative_diff", "non_negative_rate", "stdev", "s2", "sum", "interval"]

  /** The allowed names of `stats`, in order, repeats kept. */
  function KeepAllowed(stats: seq<string>): (r: seq<string>)
    ensures |r| <= |stats|
    ensures forall s | s in r :: s in Allowed
  {
    if stats == [] then []
    else KeepAllowed(stats[..|stats| - 1]) + (if stats[|stats| - 1] in Allowed then [stats[|stats| - 1]] else [])
  }

  /** Filtering twice is filtering once. */
  lemma {:induction false} KeepAllowedIdempotent(stats: seq<string>)
    ensures KeepAllowed(KeepAllowed(stats)) == KeepAllowed(stats)
  {
    AllAllowedKept(KeepAllowed(stats));
  }

  /** A list of allowed names is left as it is. */
  lemma {:induction false} AllAllowedKept(stats: seq<string>)
    requires forall s | s in stats :: s in Allowed
    ensures KeepAllowed(stats) == stats
  {
    if stats != [] {
      AllAllowedKept(stats[..|stats| - 1]);
      assert stats[..|stats| - 1] + [stats[|stats| - 1]] == stats;
    }
  }

  /** A name is kept exactly as often as it occurs, if it is allowed. */
  lemma {:induction false} KeepAllowedCounts(stats: seq<string>, s: string)
    ensures multiset(KeepAllowed(stats))[s] == if s in Allowed then multiset(stats)[s] else 0
  {
    if stats != [] {
      KeepAllowedCounts(stats[..|stats| - 1], s);
      assert stats[..|stats| - 1] + [stats[|stats| - 1]] == stats;
    }
  }

  datatype ConfigError = NoStatsConfig

  class Config {
    var dropOriginal: bool
    var stats: seq<string>

    constructor (dropOriginal: bool, stats: seq<string>)
      ensures this.dropOriginal == dropOriginal && this.stats == stats
    {
      this.dropOriginal := dropOriginal;
      this.stats := stats;
    }

    /** `Validate`: keep the allowed names; with none left, report an error
        and leave `stats` as it was. */
    method Validate() returns (err: Option<ConfigError>)
      modifies this
      ensures dropOriginal == old(dropOriginal)
      ensures KeepAllowed(old(stats)) == [] ==> err == Some(NoStatsConfig) && stats == old(stats)
      ensures KeepAllowed(old(stats)) != [] ==> err == None && stats == KeepAllowed(old(stats))
    {
      var newValid: seq<string> := [];
      var i := 0;
      while i < |stats|
        invariant 0 <= i <= |stats|
        invariant newValid == KeepAllowed(stats[..i])
      {
        assert stats[..i + 1][..i] == stats[..i];
        if stats[i] in Allowed {
          newValid := newValid + [stats[i]];
        }
        i := i + 1;
      }
      assert stats[..i] == stats;
      if |newValid| < 1 {
        return Some(NoStatsConfig);
      }
      stats := newValid;
      return None;
    }
  }

  /** A successful `Validate` leaves a non-empty list of allowed names, and a
      second `Validate` keeps it as it is. */
  method ValidateTwice(c: Config) returns (first: Option<ConfigError>, second: Option<ConfigError>)
    modifies c
    ensures first.None? ==> second.None? && c.stats == KeepAllowed(old(c.stats)) && c.stats != []
    ensures first.None? ==> forall s | s in c.stats :: s in Allowed
    ensures first.Some? ==> second.Some? && c.stats == old(c.stats)
  {
    first := c.Validate();
    KeepAllowedIdempotent(old(c.stats));
    second := c.Validate();
  }
}
