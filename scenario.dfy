/** The two-point example: X = [[0, 0], [4, 4]], Y = [-1, 1], C = 1 on the
    linear kernel. */
module Scenario {
  import opened Kernels
  import opened SmoSpec

  const Points: seq<seq<real>> := [[0.0, 0.0], [4.0, 4.0]]

  const Labels: seq<Label> := [-1.0, 1.0]

  /** The linear kernel of the two points. */
  lemma PointsKernel()
    ensures Rectangular(Points) && LinearKernel(Points) == [[0.0, 0.0], [0.0, 32.0]]
  {
    var X := Points;
    assert Dot(X[0], X[0]) == 0.0 && Dot(X[0], X[1]) == 0.0 && Dot(X[1], X[0]) == 0.0;
    assert Dot(X[1], X[1]) == 32.0;
    var K := LinearKernel(X);
    assert K[0] == [0.0, 0.0] && K[1] == [0.0, 32.0];
  }

  /** The first step, example 0 with partner 1, from the all-zero state. */
  lemma FirstStep(rule: ThresholdRule, p: Problem)
    requires p == Problem(Labels, [[0.0, 0.0], [0.0, 32.0]], 1.0, 1.0 / 1000.0)
    ensures StepWith(rule, p, State([0.0, 0.0], 0.0, [0.0, 0.0]), 0, 1)
         == Outcome(State([1.0 / 16.0, 1.0 / 16.0], 1.0, [1.0, -1.0]), Updated)
  {
    var s := State([0.0, 0.0], 0.0, [0.0, 0.0]);
    assert Column(p, 0) == [0.0, 0.0];
    assert Column(p, 1) == [0.0, 32.0];
    assert Residual(p, s.alphas, s.b, 0) == 1.0;
    assert Residual(p, s.alphas, s.b, 1) == -1.0;
    var c := Cached(p, s, 0, 1);
    assert c == State([0.0, 0.0], 0.0, [1.0, -1.0]);
    assert PairBox(p, s.alphas, 0, 1) == Box(0.0, 1.0);
    assert Eta(p, 0, 1) == -32.0;
    assert NewPartner(p, c, 0, 1) == 1.0 / 16.0;
    assert Paired(p, c, 0, 1, 1.0 / 16.0) == 1.0 / 16.0;
    assert c.alphas[1 := 1.0 / 16.0][0 := 1.0 / 16.0] == [1.0 / 16.0, 1.0 / 16.0];
    StepExits(rule, p, s, 0, 1);
  }

  /** After the first step, example 1 satisfies the KKT conditions. */
  lemma SecondStep(rule: ThresholdRule, p: Problem, s: State)
    requires p == Problem(Labels, [[0.0, 0.0], [0.0, 32.0]], 1.0, 1.0 / 1000.0)
    requires s == State([1.0 / 16.0, 1.0 / 16.0], 1.0, [1.0, -1.0])
    ensures StepWith(rule, p, s, 1, 0).exit == Satisfied
  {
    assert Column(p, 1) == [0.0, 32.0];
    assert Residual(p, s.alphas, s.b, 1) == 0.0;
  }

  /** The weights after the first step. */
  lemma FirstWeights()
    requires Rectangular(Points)
    ensures Weights(Points, 2, Signed([1.0 / 16.0, 1.0 / 16.0], Labels)) == [0.25, 0.25]
  {
    var w := Signed([1.0 / 16.0, 1.0 / 16.0], Labels);
    assert w == [-1.0 / 16.0, 1.0 / 16.0];
    var X := Points;
    assert Weights(X[1..][1..], 2, w[1..][1..]) == [0.0, 0.0];
    var last := Weights(X[1..], 2, w[1..]);
    assert last == Add(Scale(1.0 / 16.0, [4.0, 4.0]), [0.0, 0.0]);
    assert last == [0.25, 0.25];
    assert Scale(-1.0 / 16.0, [0.0, 0.0]) == [0.0, 0.0];
    assert Weights(X, 2, w) == Add([0.0, 0.0], last);
  }

  /** The first step (example 0, partner 1) moves both multipliers to 1/16
      and sets b = 1; the weights are then [1/4, 1/4], so the separating
      line W · x = b passes through the midpoint (2, 2), and the step for
      example 1 finds no KKT violation. The kernel entry between the two
      points is 0, so both threshold rules give the same b here. */
  lemma TwoPointMidpoint(rule: ThresholdRule)
    ensures Rectangular(Points)
    ensures var p := Problem(Labels, LinearKernel(Points), 1.0, 1.0 / 1000.0);
      var o := StepWith(rule, p, State([0.0, 0.0], 0.0, [0.0, 0.0]), 0, 1);
      var W := Weights(Points, 2, Signed(o.state.alphas, p.Y));
      o.exit == Updated && o.state.alphas == [1.0 / 16.0, 1.0 / 16.0] && o.state.b == 1.0 &&
      W == [0.25, 0.25] && Dot(W, [2.0, 2.0]) - o.state.b == 0.0 &&
      StepWith(rule, p, o.state, 1, 0).exit == Satisfied
  {
    PointsKernel();
    var p := Problem(Labels, LinearKernel(Points), 1.0, 1.0 / 1000.0);
    FirstStep(rule, p);
    var o := StepWith(rule, p, State([0.0, 0.0], 0.0, [0.0, 0.0]), 0, 1);
    SecondStep(rule, p, o.state);
    FirstWeights();
    assert [0.25, 0.25][1..] == [0.25] && [2.0, 2.0][1..] == [2.0];
  }
}
