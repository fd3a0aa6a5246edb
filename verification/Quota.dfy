/** `ClientInfo`: the settings of a client and its self-adaptive quota. */
module Quota {
  import opened Reals

  datatype Config = Config(baseQuota: real, minQuota: real, maxQuota: real, minFrac: real, maxFrac: real)

  /** The values of a client's mutable fields. */
  datatype ClientState = ClientState(quota: real, burst: real, latestOveruse: real, latestActualUsage: real)

  /** Below this a burst counts as missing. */
  const NO_BURST: real := 0.000000001

  /** Lower bound first, upper bound last, as the code applies them. */
  function Bounded(cfg: Config, q: real): real {
    Min(Max(q, cfg.minQuota), cfg.maxQuota)
  }

  /** The quota the next grant will carry. */
  function NextQuota(cfg: Config, burst: real, quota: real): real {
    if burst < NO_BURST then cfg.baseQuota
    else Bounded(cfg, burst * 0.5 + quota * 0.5)
  }

  class ClientInfo {
    const name: string
    const cfg: Config
    var quota: real
    var burst: real
    var latestOveruse: real
    var latestActualUsage: real

    ghost function View(): ClientState
      reads this
    {
      ClientState(quota, burst, latestOveruse, latestActualUsage)
    }

    constructor (name: string, cfg: Config)
      ensures this.name == name && this.cfg == cfg
      ensures View() == ClientState(cfg.baseQuota, 0.0, 0.0, 0.0)
    {
      this.name := name;
      this.cfg := cfg;
      quota := cfg.baseQuota;
      latestOveruse := 0.0;
      latestActualUsage := 0.0;
      burst := 0.0;
    }

    method SetBurst(estimated: real)
      modifies this`burst
      ensures burst == estimated
    {
      burst := estimated;
    }

    method GetQuota() returns (q: real)
      modifies this`quota
      ensures q == quota == NextQuota(cfg, burst, old(quota))
    {
      if burst < NO_BURST {
        quota := cfg.baseQuota;
      } else {
        quota := burst * 0.5 + quota * 0.5;
        quota := Max(quota, cfg.minQuota);
        quota := Min(quota, cfg.maxQuota);
      }
      q := quota;
    }
  }

  /**
   * Every grant based on a burst lies between the bounds if and only if the bounds are in order;
   * when they are not, every such grant is the upper bound.
   */
  lemma {:induction false} GrantWithinBounds(cfg: Config)
    ensures cfg.minQuota <= cfg.maxQuota <==>
            forall burst, quota :: NO_BURST <= burst ==>
              cfg.minQuota <= NextQuota(cfg, burst, quota) <= cfg.maxQuota
    ensures cfg.maxQuota < cfg.minQuota ==>
              forall burst, quota :: NO_BURST <= burst ==> NextQuota(cfg, burst, quota) == cfg.maxQuota
  {
    assert NextQuota(cfg, 1.0, 0.0) <= cfg.maxQuota;
  }

  /** Without a burst the grant is the base quota, whatever the quota was. */
  lemma {:induction false} BaseWithoutBurst(cfg: Config, burst: real)
    ensures burst < 0.000000001 ==> forall quota :: NextQuota(cfg, burst, quota) == cfg.baseQuota
  {
  }

  /**
   * What a grant based on a burst is, if the bounds are in order: within them, halfway between quota
   * and burst, unless that is outside; then it is the bound in the way.
   */
  lemma {:induction false} HalfwayOrBound(cfg: Config, burst: real, quota: real)
    requires 0.000000001 <= burst && cfg.minQuota <= cfg.maxQuota
    ensures var r := NextQuota(cfg, burst, quota);
            && cfg.minQuota <= r <= cfg.maxQuota
            && (r - quota == burst - r || (r - quota < burst - r && r == cfg.maxQuota)
                || (r - quota > burst - r && r == cfg.minQuota))
    ensures cfg.minQuota <= burst <= cfg.maxQuota && cfg.minQuota <= quota <= cfg.maxQuota ==>
              NextQuota(cfg, burst, quota) - burst == (quota - burst) / 2.0
  {
  }

  ghost function QuotaAfter(cfg: Config, burst: real, q0: real, n: nat): real {
    if n == 0 then q0 else NextQuota(cfg, burst, QuotaAfter(cfg, burst, q0, n - 1))
  }

  /** `d` divided by 2 to the `n`. */
  ghost function Halved(d: real, n: nat): real {
    if n == 0 then d else Halved(d, n - 1) / 2.0
  }

  /** How far a quota is from where it is heading. */
  ghost function Distance(cfg: Config, burst: real, quota: real): real {
    Abs(quota - Bounded(cfg, burst))
  }

  lemma {:induction false} HalvedSign(d: real, n: nat)
    ensures d >= 0.0 ==> 0.0 <= Halved(d, n) <= d
    ensures d <= 0.0 ==> d <= Halved(d, n) <= 0.0
  {
    if n > 0 {
      HalvedSign(d, n - 1);
    }
  }

  /**
   * The exact course of the quota under a constant burst: from a quota within the bounds, the
   * distance to the burst is halved by every grant, until a bound is in the way.
   */
  lemma {:induction false} QuotaCourse(cfg: Config, burst: real, q0: real, n: nat)
    requires NO_BURST <= burst && cfg.minQuota <= q0 <= cfg.maxQuota
    ensures QuotaAfter(cfg, burst, q0, n) == Bounded(cfg, burst + Halved(q0 - burst, n))
    ensures cfg.minQuota <= burst <= cfg.maxQuota ==>
              QuotaAfter(cfg, burst, q0, n) - burst == Halved(q0 - burst, n)
  {
    HalvedSign(q0 - burst, n);
    if n > 0 {
      HalvedSign(q0 - burst, n - 1);
      QuotaCourse(cfg, burst, q0, n - 1);
    }
  }

  /** From any quota, the course is the same after the first grant. */
  lemma {:induction false} QuotaCourseFromAny(cfg: Config, burst: real, q0: real, n: nat)
    requires NO_BURST <= burst && cfg.minQuota <= cfg.maxQuota
    ensures QuotaAfter(cfg, burst, q0, n + 1)
            == Bounded(cfg, burst + Halved(NextQuota(cfg, burst, q0) - burst, n))
  {
    hide Halved;
    FirstGrantFirst(cfg, burst, q0, n);
    QuotaCourse(cfg, burst, NextQuota(cfg, burst, q0), n);
  }

  lemma {:induction false} FirstGrantFirst(cfg: Config, burst: real, q0: real, n: nat)
    ensures QuotaAfter(cfg, burst, q0, n + 1) == QuotaAfter(cfg, burst, NextQuota(cfg, burst, q0), n)
  {
    if n > 0 {
      FirstGrantFirst(cfg, burst, q0, n - 1);
    } else {
      assert QuotaAfter(cfg, burst, q0, 0) == q0;
    }
  }

  /** One grant at least halves the distance to the bounded burst. */
  lemma {:induction false} Halves(cfg: Config, burst: real, quota: real)
    requires NO_BURST <= burst && cfg.minQuota <= cfg.maxQuota
    ensures 2.0 * Distance(cfg, burst, NextQuota(cfg, burst, quota)) <= Distance(cfg, burst, quota)
  {
  }

  /**
   * With a constant burst the quota converges to the bounded burst, from every starting quota: the
   * distance after n grants is at most the initial one divided by 2 to the n.
   */
  lemma {:induction false} Converges(cfg: Config, burst: real, q0: real, n: nat)
    requires NO_BURST <= burst && cfg.minQuota <= cfg.maxQuota
    ensures Distance(cfg, burst, QuotaAfter(cfg, burst, q0, n)) <= Halved(Distance(cfg, burst, q0), n)
  {
    if n > 0 {
      Converges(cfg, burst, q0, n - 1);
      Halves(cfg, burst, QuotaAfter(cfg, burst, q0, n - 1));
    }
  }
}
