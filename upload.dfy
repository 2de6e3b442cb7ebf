/** The upload page of app.py before it calls analyze_video: the number of the user's earlier
    predictions picks the low-fertility simulation settings it writes into the environment. */
module UploadFlow {
  import opened Common
  import opened SimulationSettings
  import History

  /** `prior`: how many predictions the user has saved before. */
  function PriorUploads(records: seq<History.Prediction>, u: string): nat
  {
    |History.UserHistory(records, u)|
  }

  /** The probability text the page writes: a higher one for the first two uploads. */
  function ProbabilityFor(prior: nat): string
  {
    if prior < 2 then "0.7" else "0.3"
  }

  /** The environment after the five assignments; only those five variables change. */
  function SelectedEnv(env: Env, prior: nat): (e: Env)
    ensures e.Keys == env.Keys + {EnabledKey, ProbabilityKey, MinimumKey, MaximumKey, NondeterministicKey}
    ensures e[EnabledKey] == "1" && e[NondeterministicKey] == "1"
    ensures e[ProbabilityKey] == (if prior < 2 then "0.7" else "0.3")
    ensures e[MinimumKey] == "30" && e[MaximumKey] == "45"
    ensures forall k :: k in env && k !in {EnabledKey, ProbabilityKey, MinimumKey, MaximumKey, NondeterministicKey}
              ==> e[k] == env[k]
  {
    env[EnabledKey := "1"][ProbabilityKey := ProbabilityFor(prior)][MinimumKey := "30"]
       [MaximumKey := "45"][NondeterministicKey := "1"]
  }

  /** What float() makes of the four literals the page writes. */
  predicate ReadsLiterals(parseFloat: string -> Option<real>)
  {
    && parseFloat("0.7") == Some(0.7) && parseFloat("0.3") == Some(0.3)
    && parseFloat("30") == Some(30.0) && parseFloat("45") == Some(45.0)
  }

  /** After the page's assignments, analyze_video reads an enabled, nondeterministic
      simulation with probability 0.7 for a user's first two uploads and 0.3 afterwards, and a
      target range of 30 to 45 whatever the environment held before. */
  lemma SelectedConfig(env: Env, prior: nat, parseFloat: string -> Option<real>)
    requires ReadsLiterals(parseFloat)
    ensures ReadConfig(SelectedEnv(env, prior), parseFloat)
            == SimulationConfig(true, if prior < 2 then 0.7 else 0.3, true, 30.0, 45.0)
    ensures TargetRange(ReadConfig(SelectedEnv(env, prior), parseFloat)) == (30.0, 45.0)
  {
    var e := SelectedEnv(env, prior);
    assert ProbabilityText(e) == ProbabilityFor(prior);
    assert MinimumText(e) == "30" && MaximumText(e) == "45";
    assert IsTrueFlag(GetEnv(e, EnabledKey, "0")) && IsTrueFlag(GetEnv(e, NondeterministicKey, "0"));
  }

  /** The process environment, which the page assigns to in place. */
  class Environment {
    var vars: Env

    constructor (vars: Env)
      ensures this.vars == vars
    {
      this.vars := vars;
    }

    /** The if/else of the upload page, given the user's saved history. */
    method SelectSimulationConfig(records: seq<History.Prediction>, u: string)
      modifies this
      ensures vars == SelectedEnv(old(vars), PriorUploads(records, u))
    {
      var prior := |History.UserHistory(records, u)|;
      if prior < 2 {
        vars := vars[EnabledKey := "1"];
        vars := vars[ProbabilityKey := "0.7"];
        vars := vars[MinimumKey := "30"];
        vars := vars[MaximumKey := "45"];
        vars := vars[NondeterministicKey := "1"];
      } else {
        vars := vars[EnabledKey := "1"];
        vars := vars[ProbabilityKey := "0.3"];
        vars := vars[MinimumKey := "30"];
        vars := vars[MaximumKey := "45"];
        vars := vars[NondeterministicKey := "1"];
      }
    }
  }
}
