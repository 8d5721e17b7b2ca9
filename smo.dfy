/** The simplified SMO trainer: a model record whose multiplier and
    residual arrays are updated in place by the inner-loop step, a pass over
    all examples, and the outer loop that ends after max_passes consecutive
    passes without a change and then computes the weight vector. Each method
    is proved to compute the corresponding function of module SmoSpec. The
    record's threshold rule selects how the candidate thresholds b1 and b2
    are computed: AsWritten is the trainer as the source writes it, Platt
    the corrected trainer. */
module Smo {
  import opened Kernels
  import opened SmoSpec

  /** The model record: X, Y, C and the kernel are fixed at construction;
      alphas, error, b, tol and W are what training changes. rule is the
      threshold rule every step uses. */
  class SimplifiedSmo {
    const X: seq<seq<real>>
    const Y: seq<Label>
    const C: real
    const kernel: seq<seq<real>>
    const rule: ThresholdRule
    const alphas: array<real>
    const error: array<real>
    var b: real
    var tol: real
    var W: seq<real>
    var sigma: real

    ghost predicate Valid()
      reads this
    {
      |X| == |Y| && Rectangular(X) && WellFormed(Params()) &&
      alphas.Length == |Y| && error.Length == |Y| && alphas != error &&
      |W| == Width(X)
    }

    /** The fixed part of the model, as the value the specification works on. */
    function Params(): Problem
      reads this
    {
      Problem(Y, kernel, C, tol)
    }

    /** The mutable part of the model. */
    ghost function Snapshot(): State
      reads this, alphas, error
    {
      State(alphas[..], b, error[..])
    }

    /** simplifiedSMO(X, Y, C, kernel): all multipliers, residuals, b, tol,
        sigma and the weights start at zero; the trainer runs with the
        given threshold rule. */
    constructor (X: seq<seq<real>>, Y: seq<Label>, C: real, kernel: seq<seq<real>>, rule: ThresholdRule)
      requires |X| == |Y| && Rectangular(X)
      requires |kernel| == |Y| && IsMatrix(kernel, |Y|)
      ensures Valid() && fresh(alphas) && fresh(error)
      ensures this.X == X && this.Y == Y && this.C == C && this.kernel == kernel && this.rule == rule
      ensures alphas[..] == seq(|Y|, k => 0.0) && error[..] == seq(|Y|, k => 0.0)
      ensures b == 0.0 && tol == 0.0 && sigma == 0.0 && W == seq(Width(X), c => 0.0)
    {
      this.X := X;
      this.Y := Y;
      this.C := C;
      this.kernel := kernel;
      this.rule := rule;
      alphas := new real[|Y|](k => 0.0);
      b := 0.0;
      tol := 0.0;
      error := new real[|Y|](k => 0.0);
      W := seq(Width(X), c => 0.0);
      sigma := 0.0;
    }

    /** The body of the inner loop for example i with partner index j
        (j = -1 names the last example). Returns whether the pair changed. */
    method Step(i: nat, j: int) returns (changed: bool)
      requires Valid() && i < alphas.Length && PartnerOk(alphas.Length, i, j)
      modifies this`b, alphas, error
      ensures Valid()
      ensures var o := StepWith(rule, old(Params()), old(Snapshot()), i, j);
        Snapshot() == o.state && changed == (o.exit == Updated)
    {
      ghost var s := Snapshot();
      var p := Params();
      StepExits(rule, p, s, i, j);
      var m := alphas.Length;
      error[i] := Residual(p, alphas[..], b, i);
      var r2 := Y[i] * error[i];
      if !ViolatesKkt(p, r2, alphas[i]) {
        assert error[..] == s.error[i := error[i]];
        return false;
      }
      var k := PartnerIndex(m, j);
      error[k] := Residual(p, alphas[..], b, k);
      assert error[..] == Cached(p, s, i, k).error && alphas[..] == s.alphas;
      var box := PairBox(p, alphas[..], i, k);
      if box.lo == box.hi {
        return false;
      }
      var eta := Eta(p, i, k);
      if eta >= 0.0 {
        return false;
      }
      changed := UpdatePair(i, k, box, eta);
    }

    /** The rest of the step once eta < 0, with error[i] and error[k]
        already refreshed: move and clip alphas[k], restore it if the move
        is below tol, otherwise make the paired move of alphas[i] and
        select b. */
    method UpdatePair(i: nat, k: nat, box: Box, eta: real) returns (changed: bool)
      requires Valid() && i < alphas.Length && k < alphas.Length
      requires eta == Eta(Params(), i, k) && eta < 0.0 && box == PairBox(Params(), alphas[..], i, k)
      requires error[i] == Residual(Params(), alphas[..], b, i)
      requires error[k] == Residual(Params(), alphas[..], b, k)
      modifies this`b, alphas
      ensures Valid()
      ensures var o := PairMove(rule, old(Params()), old(Snapshot()), i, k);
        Snapshot() == o.state && changed == (o.exit == Updated)
    {
      ghost var s := Snapshot();
      var p := Params();
      ghost var ak := NewPartner(p, s, i, k);
      var alphaIOld := alphas[i];
      var alphaKOld := alphas[k];
      alphas[k] := alphas[k] - Y[k] * (error[i] - error[k]) / eta;
      alphas[k] := Min(box.hi, alphas[k]);
      alphas[k] := Max(box.lo, alphas[k]);
      assert alphas[k] == ak;
      if Abs(alphas[k] - alphaKOld) < tol {
        alphas[k] := alphaKOld;
        assert alphas[..] == s.alphas;
        return false;
      }
      assert k != i;
      ghost var ai := Paired(p, s, i, k, ak);
      ghost var a1 := alphas[..];
      assert a1 == s.alphas[k := ak];
      alphas[i] := alphas[i] + Y[i] * Y[k] * (alphaKOld - alphas[k]);
      assert alphas[i] == ai;
      assert alphas[..] == a1[i := ai];
      var c := CandidatesBy(rule, p, i, k, b, error[i], error[k], alphas[i] - alphaIOld, alphas[k] - alphaKOld);
      b := Threshold(C, alphas[i], alphas[k], c.b1, c.b2);
      changed := true;
    }

    /** One pass `for i in range(m)` with partner js[i] for example i.
        Returns num_changed_alpha. */
    method Pass(js: seq<int>) returns (numChanged: nat)
      requires Valid() && PartnersOk(alphas.Length, js)
      modifies this`b, alphas, error
      ensures Valid()
      ensures var r := Sweep(rule, old(Params()), old(Snapshot()), js, alphas.Length);
        Snapshot() == r.state && numChanged == r.changed
    {
      ghost var s0 := Snapshot();
      numChanged := 0;
      for i := 0 to alphas.Length
        invariant Valid() && Params() == old(Params())
        invariant Sweep(rule, Params(), s0, js, i) == SweepResult(Snapshot(), numChanged)
      {
        var changed := Step(i, js[i]);
        if changed {
          numChanged := numChanged + 1;
        }
      }
    }

    /** execute_SMO(model, max_passes): sets tol to 10^-3, runs passes until
        max_passes consecutive passes change nothing, then computes W.
        draws[t] are the partners of pass t; if they run out first, the run
        stops unconverged and W is left as it was. */
    method ExecuteSmo(maxPasses: int, draws: seq<seq<int>>) returns (converged: bool, ghost history: seq<nat>)
      requires Valid() && Draws(alphas.Length, draws)
      modifies this`tol, this`b, this`W, alphas, error
      ensures Valid() && tol == 1.0 / 1000.0
      ensures var r := Run(rule, Params(), old(Snapshot()), 0, maxPasses, draws);
        Snapshot() == r.state && converged == (r.passes >= maxPasses) && history == r.history &&
        (converged && maxPasses >= 0 ==> r.passes == maxPasses)
      ensures converged ==> W == Weights(X, Width(X), Signed(alphas[..], Y))
      ensures !converged ==> W == old(W) && |history| == |draws|
      ensures converged && maxPasses >= 0 ==>
        maxPasses <= |history| &&
        forall t :: |history| - maxPasses <= t < |history| ==> history[t] == 0
      ensures old(InBox(Params(), alphas[..])) ==> InBox(Params(), alphas[..])
      ensures LabelledSum(Params(), alphas[..]) == old(LabelledSum(Params(), alphas[..]))
    {
      tol := 1.0 / 1000.0;
      ghost var p := Params();
      ghost var s0 := Snapshot();
      var passes: nat := 0;
      var round := 0;
      history := [];
      RunSplitsStart(rule, p, s0, maxPasses, draws);
      while passes < maxPasses && round < |draws|
        invariant Valid() && Params() == p && W == old(W)
        invariant RunSplits(rule, p, s0, maxPasses, draws, Snapshot(), passes, history, round)
        decreases |draws| - round
      {
        RunSplitsAdvance(rule, p, s0, maxPasses, draws, Snapshot(), passes, history, round);
        var numChanged := Pass(draws[round]);
        if numChanged == 0 {
          passes := passes + 1;
        } else {
          passes := 0;
        }
        history := history + [numChanged];
        round := round + 1;
      }
      RunSplitsEnd(rule, p, s0, maxPasses, draws, Snapshot(), passes, history, round);
      converged := passes >= maxPasses;
      RunStopsAtBudget(rule, p, s0, 0, maxPasses, draws);
      RunKeepsLabelledSum(rule, p, s0, 0, maxPasses, draws);
      if InBox(p, s0.alphas) {
        RunKeepsBox(rule, p, s0, 0, maxPasses, draws);
      }
      if converged {
        W := Weights(X, Width(X), Signed(alphas[..], Y));
        CleanStreakTail(history, if maxPasses < 0 then 0 else maxPasses);
      }
    }
  }
}
