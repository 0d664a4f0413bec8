/** The arithmetic of the simulation server (backend/app.py) as pure functions:
    what one mining success takes out of the resource pool, what one tick of
    the regenerator puts back, and how a fresh miner id is chosen. The server
    class applies these to its shared state. */
module Rules {
  import opened Wire
  import Text

  /** The most miner processes the server keeps alive. */
  const MaxMiners := 6

  /** Upper bounds the regenerator refills to. */
  const MineralsCap := 100
  const EnergyCap := 100
  const CrystalsCap := 50

  const Colors: seq<string> := ["#3b82f6", "#ef4444", "#10b981", "#f59e0b", "#8b5cf6", "#ec4899"]

  function MinerName(id: int): string
  {
    "Minerador-" + Text.IntToString(id)
  }

  /** Two miners with different ids never share a name, so a log line that
      names a miner names exactly one. */
  lemma MinerNameInjective(a: int, b: int)
    ensures MinerName(a) == MinerName(b) <==> a == b
  {
    if MinerName(a) == MinerName(b) {
      assert Text.IntToString(a) + [] == Text.IntToString(a);
      assert Text.IntToString(b) + [] == Text.IntToString(b);
      Text.Framed("Minerador-", a, b, [], []);
    }
  }

  /** Colours cycle by id; Python's `%` and Dafny's agree for a positive divisor. */
  function ColorOf(id: int): string
  {
    Colors[id % |Colors|]
  }

  function Min(a: int, b: int): int { if a <= b then a else b }

  /** Energy a miner needs before it tries, and also what a success costs. */
  function EnergyCost(t: Target): int
  {
    match t
    case Minerals => 5
    case Crystals => 8
  }

  /** The most one success can take of the target resource. */
  function YieldCap(t: Target): int
  {
    match t
    case Minerals => 5
    case Crystals => 3
  }

  function Amount(r: Resources, t: Target): int
  {
    match t
    case Minerals => r.minerals
    case Crystals => r.crystals
  }

  /** The ranges the server keeps its resources in. */
  predicate InCaps(r: Resources)
  {
    && 0 <= r.minerals <= MineralsCap
    && 0 <= r.energy <= EnergyCap
    && 0 <= r.crystals <= CrystalsCap
  }

  /** What a mining attempt that passed the energy check took, and what it left. */
  datatype Haul = Haul(delta: int, res: Resources)

  /** One mining success on `t`: `delta` units leave the target resource
      (at most its cap, never more than there is), energy drops by the cost
      but not below zero, and the other resource is untouched. An empty target
      yields nothing and costs nothing. */
  function Take(r: Resources, t: Target): (h: Haul)
    ensures 0 <= h.delta <= YieldCap(t)
    ensures h.delta > 0 <==> Amount(r, t) > 0
    ensures Amount(r, t) > 0 ==> h.delta == Min(YieldCap(t), Amount(r, t))
    ensures Amount(h.res, t) == Amount(r, t) - h.delta
    ensures t == Minerals ==> h.res.crystals == r.crystals
    ensures t == Crystals ==> h.res.minerals == r.minerals
    ensures h.delta == 0 ==> h.res == r
    ensures h.delta > 0 && r.energy >= EnergyCost(t) ==> h.res.energy == r.energy - EnergyCost(t)
    ensures h.delta > 0 && r.energy < EnergyCost(t) ==> h.res.energy == 0
    ensures InCaps(r) ==> InCaps(h.res)
  {
    match t
    case Minerals =>
      if r.minerals > 0 then
        var delta := Min(5, r.minerals);
        Haul(delta, r.(minerals := r.minerals - delta,
                       energy := if r.energy - 5 < 0 then 0 else r.energy - 5))
      else Haul(0, r)
    case Crystals =>
      if r.crystals > 0 then
        var delta := Min(3, r.crystals);
        Haul(delta, r.(crystals := r.crystals - delta,
                       energy := if r.energy - 8 < 0 then 0 else r.energy - 8))
      else Haul(0, r)
  }

  /** One regenerator tick: minerals +1 and energy +2 up to their caps every
      tick, crystals +1 up to 50 on every fifth tick only. */
  function Regen(r: Resources, tick: nat): (q: Resources)
    ensures q.minerals <= MineralsCap && q.energy <= EnergyCap
    ensures tick % 5 != 0 ==> q.crystals == r.crystals
    ensures tick % 5 == 0 ==> q.crystals <= CrystalsCap
    ensures r.minerals < MineralsCap ==> q.minerals == r.minerals + 1
    ensures r.energy <= EnergyCap - 2 ==> q.energy == r.energy + 2
    ensures tick % 5 == 0 && r.crystals < CrystalsCap ==> q.crystals == r.crystals + 1
    ensures InCaps(r) ==> InCaps(q)
    ensures InCaps(r) ==> r.minerals <= q.minerals && r.energy <= q.energy && r.crystals <= q.crystals
  {
    Resources(
      Min(MineralsCap, r.minerals + 1),
      Min(EnergyCap, r.energy + 2),
      if tick % 5 == 0 then Min(CrystalsCap, r.crystals + 1) else r.crystals)
  }

  /** The regenerator's loop run for ticks `t0 + 1` through `t0 + n`. */
  function RegenFrom(r: Resources, t0: nat, n: nat): Resources
  {
    if n == 0 then r else Regen(RegenFrom(r, t0, n - 1), t0 + n)
  }

  /** After `n` ticks the pool is refilled by exactly one mineral and two energy
      per tick and one crystal per multiple of five passed, each clipped at its cap. */
  lemma {:induction false} RegenClosedForm(r: Resources, t0: nat, n: nat)
    requires InCaps(r)
    ensures RegenFrom(r, t0, n) == Resources(
      Min(MineralsCap, r.minerals + n),
      Min(EnergyCap, r.energy + 2 * n),
      Min(CrystalsCap, r.crystals + (t0 + n) / 5 - t0 / 5))
  {
    if n > 0 {
      RegenClosedForm(r, t0, n - 1);
      var t := t0 + n;
      var q := RegenFrom(r, t0, n - 1);
      assert RegenFrom(r, t0, n) == Regen(q, t);
      if t % 5 == 0 {
        assert t / 5 == (t - 1) / 5 + 1;
      } else {
        assert t / 5 == (t - 1) / 5;
      }
    }
  }

  /** If every number below `k` is in `ids`, then `ids` has at least `k` elements. */
  lemma {:induction false} PrefixFits(ids: set<int>, k: nat)
    requires forall j :: 0 <= j < k ==> j in ids
    ensures k <= |ids|
  {
    if k > 0 {
      PrefixFits(ids - {k - 1}, k - 1);
    }
  }

  /** The id search of `create_miner`: count up from 0 until an unused id is
      found. The result is the least natural number not in `ids`, and it is at
      most `|ids|`. */
  method FreeId(ids: set<int>) returns (id: int)
    ensures 0 <= id <= |ids|
    ensures id !in ids
    ensures forall j :: 0 <= j < id ==> j in ids
  {
    id := 0;
    while id in ids
      invariant 0 <= id <= |ids|
      invariant forall j :: 0 <= j < id ==> j in ids
      decreases |ids| - id
    {
      PrefixFits(ids, id + 1);
      id := id + 1;
    }
  }
}
