/** The step counter and action handling of the conformer environment
    (gymspace.py `Environment`).

    An action holds one bin in 0..5 per rotatable torsion; bin a asks for the
    dihedral angle -180 + 60a degrees. `reset` sets the step counter to 0 and
    every `step` adds one to it, reporting `done` exactly when the counter
    equals 100. The conformer itself (embedding, setting the dihedral,
    force-field minimisation, energy) is RDKit work and appears here only as
    the list of dihedral targets a step asks RDKit to set.

    As written, `step` returns from inside its loop over the torsions, so it
    sets the first torsion only, and returns None when there is no torsion.
    StepIntended sets every torsion before returning. */
module Environment {
  import opened Molecule

  /** Bins per torsion in the MultiDiscrete action space. */
  const ActionBins: nat := 6
  /** The counter value at which an episode reports done. */
  const MaxSteps: nat := 100

  datatype Env = Env(currentStep: nat, nonring: seq<Torsion>)

  /** A call to SetDihedralDeg: rotate torsion to degrees. */
  datatype DihedralTarget = DihedralTarget(torsion: Torsion, degrees: int)

  datatype StepOutcome =
    /** `return obs, rew, done, {}`, after the dihedrals in targets were set. */
    | Stepped(env: Env, targets: seq<DihedralTarget>, done: bool)
    /** The loop body never ran, so the call fell through and returned None. */
    | ReturnedNone(env: Env)
    /** action[idx] was out of range; the counter had already been bumped. */
    | ActionIndexError(env: Env)

  /** spaces.MultiDiscrete([6 for elt in self.nonring]). */
  function ActionSpace(env: Env): (r: seq<nat>)
    ensures |r| == |env.nonring|
    ensures forall i :: 0 <= i < |r| ==> r[i] == ActionBins
  {
    seq(|env.nonring|, _ => ActionBins)
  }

  predicate InActionSpace(env: Env, action: seq<int>)
  {
    && |action| == |ActionSpace(env)|
    && forall i :: 0 <= i < |action| ==> 0 <= action[i] < ActionSpace(env)[i]
  }

  /** Target dihedral, in degrees, for action bin a. */
  function ActionAngle(a: int): int
  {
    -180 + 60 * a
  }

  /** The six angles the bins 0..5 ask for. */
  const BinAngles: set<int> := {-180, -120, -60, 0, 60, 120}

  /** A bin lies in the action space exactly when its angle is one of the
      six bin angles; the map is one-to-one on all integers, its inverse
      being (angle + 180) / 60. */
  lemma ActionAngleBins(a: int)
    ensures 0 <= a < ActionBins <==> ActionAngle(a) in BinAngles
    ensures (ActionAngle(a) + 180) / 60 == a
  {
    if ActionAngle(a) in BinAngles {
      assert 60 * a in {0, 60, 120, 180, 240, 300};
    }
  }

  /** `reset`: the counter returns to 0; the torsion list is kept. */
  function Reset(env: Env): (r: Env)
    ensures r.currentStep == 0 && r.nonring == env.nonring
  {
    env.(currentStep := 0)
  }

  /** `step` as written: the counter goes up first; the loop over torsions
      sets torsion 0 from action[0] and returns in its first iteration. */
  function Step(env: Env, action: seq<int>): (r: StepOutcome)
    ensures r.env == Env(env.currentStep + 1, env.nonring)
    ensures r.ReturnedNone? <==> |env.nonring| == 0
    ensures r.ActionIndexError? <==> |env.nonring| > 0 && |action| == 0
    ensures r.Stepped? ==> (r.done <==> r.env.currentStep == MaxSteps)
    ensures r.Stepped? ==> r.targets == [DihedralTarget(env.nonring[0], ActionAngle(action[0]))]
  {
    var next := env.(currentStep := env.currentStep + 1);
    if |env.nonring| == 0 then ReturnedNone(next)
    else if |action| == 0 then ActionIndexError(next)
    else Stepped(next, [DihedralTarget(env.nonring[0], ActionAngle(action[0]))], next.currentStep == MaxSteps)
  }

  /** `step` as its comment describes it: every torsion i is set from
      action[i] before the observation, reward and done flag are returned. */
  function StepIntended(env: Env, action: seq<int>): (r: StepOutcome)
    ensures r.env == Env(env.currentStep + 1, env.nonring)
    ensures !r.ReturnedNone?
    ensures r.ActionIndexError? <==> |action| < |env.nonring|
    ensures r.Stepped? ==> (r.done <==> r.env.currentStep == MaxSteps)
    ensures r.Stepped? ==> |r.targets| == |env.nonring|
    ensures r.Stepped? ==> forall i :: 0 <= i < |env.nonring| ==>
      r.targets[i].torsion == env.nonring[i] && r.targets[i].degrees == ActionAngle(action[i])
  {
    var next := env.(currentStep := env.currentStep + 1);
    if |action| < |env.nonring| then ActionIndexError(next)
    else
      var targets := seq(|env.nonring|, i requires 0 <= i < |env.nonring| =>
                         DihedralTarget(env.nonring[i], ActionAngle(action[i])));
      Stepped(next, targets, next.currentStep == MaxSteps)
  }

  /** A valid action for a molecule with torsions always steps, and every
      target it sets is one of the six bin angles. */
  lemma ValidActionTargets(env: Env, action: seq<int>)
    requires InActionSpace(env, action)
    ensures |env.nonring| > 0 ==> Step(env, action).Stepped?
    ensures StepIntended(env, action).Stepped?
    ensures Step(env, action).Stepped? ==> Step(env, action).targets[0].degrees in BinAngles
    ensures forall i :: 0 <= i < |StepIntended(env, action).targets| ==>
      StepIntended(env, action).targets[i].degrees in BinAngles
  {
    if Step(env, action).Stepped? {
      ActionAngleBins(action[0]);
    }
    var r := StepIntended(env, action);
    forall i | 0 <= i < |r.targets| ensures r.targets[i].degrees in BinAngles {
      ActionAngleBins(action[i]);
    }
  }

  /** The two agree on a molecule with a single rotatable torsion. */
  lemma SingleTorsionAgrees(env: Env, action: seq<int>)
    requires |env.nonring| == 1 && |action| >= 1
    ensures Step(env, action) == StepIntended(env, action)
  {
    var r := StepIntended(env, action);
    assert r.targets == [DihedralTarget(env.nonring[0], ActionAngle(action[0]))];
  }

  /** Two torsions and action [0, 3]: the intended targets are -180 and 0
      degrees, but the step as written sets only the first. */
  lemma OnlyFirstTorsionSet(t0: Torsion, t1: Torsion, n: nat)
    ensures
      var env := Env(n, [t0, t1]);
      && Step(env, [0, 3]).Stepped?
      && Step(env, [0, 3]).targets == [DihedralTarget(t0, -180)]
      && StepIntended(env, [0, 3]).Stepped?
      && StepIntended(env, [0, 3]).targets == [DihedralTarget(t0, -180), DihedralTarget(t1, 0)]
  {
    var r := StepIntended(Env(n, [t0, t1]), [0, 3]);
    assert r.targets[1] == DihedralTarget(t1, 0);
  }

  function DoneFlag(r: StepOutcome): bool
  {
    r.Stepped? && r.done
  }

  /** Applies the actions in order; returns the final environment and the
      done flag each step reported (false when a step did not return one). */
  function Run(env: Env, actions: seq<seq<int>>): (Env, seq<bool>)
  {
    if |actions| == 0 then (env, [])
    else
      var (mid, flags) := Run(env, actions[..|actions| - 1]);
      var r := Step(mid, actions[|actions| - 1]);
      (r.env, flags + [DoneFlag(r)])
  }

  /** An episode after `reset`: after k steps the counter is k, and step
      j (counted from 1) reports done exactly when j is 100, once it returns
      at all; later steps keep counting and report not done. */
  lemma {:induction false} Episode(env: Env, actions: seq<seq<int>>)
    ensures Run(Reset(env), actions).0 == Env(|actions|, env.nonring)
    ensures |Run(Reset(env), actions).1| == |actions|
    ensures forall j :: 0 <= j < |actions| ==> Run(Reset(env), actions).1[j] ==> j + 1 == MaxSteps
    ensures |env.nonring| > 0 ==> forall j :: 0 <= j < |actions| && |actions[j]| > 0 ==>
      (Run(Reset(env), actions).1[j] <==> j + 1 == MaxSteps)
    decreases |actions|
  {
    if |actions| > 0 {
      var init := actions[..|actions| - 1];
      Episode(env, init);
      var (mid, flags) := Run(Reset(env), init);
      var r := Step(mid, actions[|actions| - 1]);
      assert Run(Reset(env), actions) == (r.env, flags + [DoneFlag(r)]);
      forall j | 0 <= j < |init| ensures actions[j] == init[j] { }
    }
  }
}
