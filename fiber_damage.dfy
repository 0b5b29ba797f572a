/**
 * Continuous damage of elastic fibers. Each material point keeps history
 * variables: the accumulated damage D, the fiber energy psi_f0 with its
 * values at the last converged step and at damage onset, the accumulated
 * energy increase bt, and the saturation variable gamma. The stress update
 * advances them once the analysis time reaches the onset time; the
 * saturation and damage laws, and the fiber energy itself, are exp/log
 * formulas given here as parameters.
 */
module FiberDamage {

  /** The tolerance the damage update compares against. */
  const EPS: real := 0.000000001

  /** The Macaulay bracket: a when positive, else 0. */
  function MB(a: real): (r: real)
    ensures r >= 0.0 && r >= a
    ensures a > 0.0 ==> r == a
  {
    if a > 0.0 then a else 0.0
  }

  /** The history variables of a fiber damage point. */
  datatype History = History(
    init: bool, D: real,
    psiF0Ini: real, psfC: real, psiF0: real, psiF0Prev: real,
    btIni: real, bt: real, btPrev: real,
    gamma: real, gammaPrev: real)

  /** The saturation law Ds(gamma) and the damage law D(Ds, beta). */
  type SaturationLaw = real -> real
  type DamageLaw = (real, real) -> real

  /** The state Init resets to: everything zero except the three energies, which start at the threshold psfC. */
  function Reset(h: History): (r: History)
    ensures r.psfC == h.psfC && !r.init && r.D == 0.0
    ensures r.psiF0Ini == h.psfC && r.psiF0 == h.psfC && r.psiF0Prev == h.psfC
    ensures r.btIni == 0.0 && r.bt == 0.0 && r.btPrev == 0.0 && r.gamma == 0.0 && r.gammaPrev == 0.0
  {
    History(false, 0.0, h.psfC, h.psfC, h.psfC, h.psfC, 0.0, 0.0, 0.0, 0.0, 0.0)
  }

  /** The state Update leaves: the converged gamma, bt and psi_f0 become the previous values; nothing else changes. */
  function Committed(h: History): (r: History)
    ensures r.gammaPrev == h.gamma && r.btPrev == h.bt && r.psiF0Prev == h.psiF0
    ensures r.(gammaPrev := h.gammaPrev, btPrev := h.btPrev, psiF0Prev := h.psiF0Prev) == h
  {
    h.(gammaPrev := h.gamma, btPrev := h.bt, psiF0Prev := h.psiF0)
  }

  /** Damage evolves from the time tinit on, less the tolerance. */
  predicate Active(t: real, tinit: real)
  {
    t >= tinit - EPS
  }

  /**
   * The history block of the fiber stress at time t with fiber energy psi.
   * Before onset nothing changes. After it, bt adds the energy increase since
   * the last converged step; the first active call latches the onset energy
   * and bt; gamma jumps to the energy above onset when that exceeds the
   * previous gamma by more than the tolerance; and D follows the laws.
   */
  function HistoryStep(h: History, psi: real, t: real, tinit: real, Ds: SaturationLaw, Df: DamageLaw): (r: History)
    ensures !Active(t, tinit) ==> r == h
    ensures r.psfC == h.psfC && r.psiF0Prev == h.psiF0Prev && r.btPrev == h.btPrev && r.gammaPrev == h.gammaPrev
    ensures Active(t, tinit) ==> r.init && r.psiF0 == psi && r.bt >= h.btPrev && r.gamma >= h.gammaPrev
    ensures Active(t, tinit) && psi <= h.psiF0Prev ==> r.bt == h.btPrev
    ensures h.init ==> r.init && r.psiF0Ini == h.psiF0Ini && r.btIni == h.btIni
    ensures Active(t, tinit) && !h.init ==> r.psiF0Ini == psi && r.btIni == r.bt
    ensures Active(t, tinit) ==> r.D == Df(Ds(r.gamma), MB(r.bt - r.btIni))
  {
    if !Active(t, tinit) then h
    else
      var bt := h.btPrev + MB(psi - h.psiF0Prev);
      var ini := if h.init then h.psiF0Ini else psi;
      var btIni := if h.init then h.btIni else bt;
      var phiTrial := MB(psi - ini) - h.gammaPrev;
      var gamma := if phiTrial > EPS then MB(psi - ini) else h.gammaPrev;
      var beta := MB(bt - btIni);
      h.(init := true, psiF0Ini := ini, btIni := btIni, bt := bt, psiF0 := psi, gamma := gamma,
         D := Df(Ds(gamma), beta))
  }

  /** The damage internal variable beta is never negative. */
  lemma BetaNonNegative(h: History, psi: real, t: real, tinit: real, Ds: SaturationLaw, Df: DamageLaw)
    requires Active(t, tinit)
    ensures var r := HistoryStep(h, psi, t, tinit, Ds, Df); MB(r.bt - r.btIni) >= 0.0
  {
  }

  /** A converged step: the stress update at (t, psi) followed by Update. */
  function Evolve(h: History, steps: seq<(real, real)>, tinit: real, Ds: SaturationLaw, Df: DamageLaw): History
    decreases |steps|
  {
    if |steps| == 0 then h
    else
      var prev := Evolve(h, steps[..|steps| - 1], tinit, Ds, Df);
      var s := steps[|steps| - 1];
      Committed(HistoryStep(prev, s.1, s.0, tinit, Ds, Df))
  }

  /**
   * Over any run of converged steps the committed bt and gamma never
   * decrease, and once damage has started its onset values never change.
   */
  lemma {:induction false} EvolveMonotone(h: History, steps: seq<(real, real)>, tinit: real, Ds: SaturationLaw, Df: DamageLaw)
    requires h.bt >= h.btPrev && h.gamma >= h.gammaPrev
    ensures var r := Evolve(h, steps, tinit, Ds, Df); r.btPrev >= h.btPrev && r.gammaPrev >= h.gammaPrev
    ensures var r := Evolve(h, steps, tinit, Ds, Df); r.bt >= r.btPrev && r.gamma >= r.gammaPrev
    ensures var r := Evolve(h, steps, tinit, Ds, Df); h.init ==> r.init && r.psiF0Ini == h.psiF0Ini && r.btIni == h.btIni
    decreases |steps|
  {
    if |steps| > 0 {
      EvolveMonotone(h, steps[..|steps| - 1], tinit, Ds, Df);
    }
  }

  /** The energy argument of the stress, clamped at zero. */
  function StressArgument(D: real, psi: real, psfC: real): (P: real)
    ensures P >= 0.0
    ensures (1.0 - D) * psi - psfC >= 0.0 ==> P == (1.0 - D) * psi - psfC
  {
    var P := (1.0 - D) * psi - psfC;
    if P < 0.0 then 0.0 else P
  }

  /** A fiber damage point: its history variables, updated in place. */
  class FiberDamagePoint {
    var init: bool
    var D: real
    var psiF0Ini: real
    var psfC: real
    var psiF0: real
    var psiF0Prev: real
    var btIni: real
    var bt: real
    var btPrev: real
    var gamma: real
    var gammaPrev: real

    function Snapshot(): (r: History)
      reads this
      ensures r.D == D && r.psfC == psfC && r.init == init
    {
      History(init, D, psiF0Ini, psfC, psiF0, psiF0Prev, btIni, bt, btPrev, gamma, gammaPrev)
    }

    /** A new point starts with every variable zero and no damage onset. */
    constructor ()
      ensures Snapshot() == History(false, 0.0, 0.0, 0.0, 0.0, 0.0, 0.0, 0.0, 0.0, 0.0, 0.0)
    {
      D := 0.0;
      psiF0Ini := 0.0;
      psiF0 := 0.0;
      psiF0Prev := 0.0;
      btIni := 0.0;
      bt := 0.0;
      btPrev := 0.0;
      gamma := 0.0;
      gammaPrev := 0.0;
      psfC := 0.0;
      init := false;
    }

    method Init()
      modifies this
      ensures Snapshot() == Reset(old(Snapshot()))
    {
      D := 0.0;
      psiF0Ini := psfC;
      psiF0 := psfC;
      psiF0Prev := psfC;
      btIni := 0.0;
      bt := 0.0;
      btPrev := 0.0;
      gamma := 0.0;
      gammaPrev := 0.0;
      init := false;
    }

    method Update()
      modifies this
      ensures Snapshot() == Committed(old(Snapshot()))
    {
      gammaPrev := gamma;
      btPrev := bt;
      psiF0Prev := psiF0;
    }

    /** The history block of the fiber stress: advances the variables once damage is active. */
    method AdvanceHistory(t: real, tinit: real, psi: real, Ds: SaturationLaw, Df: DamageLaw)
      modifies this
      ensures Snapshot() == HistoryStep(old(Snapshot()), psi, t, tinit, Ds, Df)
    {
      ghost var h := Snapshot();
      if t >= tinit - EPS {
        var bt1 := btPrev + MB(psi - psiF0Prev);
        if !init {
          psiF0Ini := psi;
          btIni := bt1;
          init := true;
        }
        var phiTrial := MB(psi - psiF0Ini) - gammaPrev;
        var gamma1: real;
        if phiTrial > EPS {
          gamma1 := MB(psi - psiF0Ini);
        } else {
          gamma1 := gammaPrev;
        }
        var beta := MB(bt1 - btIni);
        bt := bt1;
        psiF0 := psi;
        gamma := gamma1;
        D := Df(Ds(gamma1), beta);
        assert Snapshot() == HistoryStep(h, psi, t, tinit, Ds, Df);
      }
    }

    /**
     * The scalar part of the fiber stress: advances the history, then returns
     * the damage used, the clamped energy argument and the slope dm/dP there.
     */
    method FiberStress(t: real, tinit: real, psi: real, Ds: SaturationLaw, Df: DamageLaw, dmdP: real -> real)
      returns (d: real, P: real, dm: real)
      modifies this
      ensures Snapshot() == HistoryStep(old(Snapshot()), psi, t, tinit, Ds, Df)
      ensures d == D
      ensures P == StressArgument(d, psi, psfC) && P >= 0.0
      ensures dm == dmdP(P)
    {
      AdvanceHistory(t, tinit, psi, Ds, Df);
      d := D;
      P := StressArgument(d, psi, psfC);
      dm := dmdP(P);
    }
  }

  /**
   * The exponential fiber's energy m(P), zero for P <= 0; exp is the
   * exponential function, a parameter.
   */
  function ExpFiberM(P: real, k1: real, k2: real, exp: real -> real): (r: real)
    requires k2 > 1.0
    ensures P <= 0.0 ==> r == 0.0
    ensures k1 >= 0.0 && exp(k2 * P * P) >= 1.0 ==> r >= 0.0
  {
    if P <= 0.0 then 0.0
    else
      ExpFiberMNonNegative(k1, k2, exp(k2 * P * P));
      (0.5 * k1 / k2) * (exp(k2 * P * P) - 1.0)
  }

  /** The energy's coefficient k1 / (2 k2) is non-negative with k1, so the energy is when the exponential is at least 1. */
  lemma ExpFiberMNonNegative(k1: real, k2: real, e: real)
    requires k2 > 1.0
    ensures k1 >= 0.0 && e >= 1.0 ==> (0.5 * k1 / k2) * (e - 1.0) >= 0.0
  {
    if k1 >= 0.0 && e >= 1.0 {
      assert 0.5 * k1 / k2 >= 0.0;
    }
  }

  /** dm/dP of the exponential fiber, zero for P <= 0. */
  function ExpFiberDm(P: real, k1: real, k2: real, exp: real -> real): (r: real)
    ensures P <= 0.0 ==> r == 0.0
    ensures k1 >= 0.0 && (forall x :: exp(x) > 0.0) ==> r >= 0.0
  {
    if P <= 0.0 then 0.0 else (k1 * P) * exp(k2 * P * P)
  }

  /** d2m/dP2 of the exponential fiber, zero for P <= 0. */
  function ExpFiberD2m(P: real, k1: real, k2: real, exp: real -> real): (r: real)
    ensures P <= 0.0 ==> r == 0.0
  {
    if P <= 0.0 then 0.0 else k1 * (1.0 + 2.0 * k2 * P * P) * exp(k2 * P * P)
  }

  /** With the exponential fiber, a stress whose energy argument is clamped has zero slope. */
  lemma ClampedStressHasNoSlope(D: real, psi: real, psfC: real, k1: real, k2: real, exp: real -> real)
    requires (1.0 - D) * psi - psfC <= 0.0
    ensures ExpFiberDm(StressArgument(D, psi, psfC), k1, k2, exp) == 0.0
  {
  }
}
