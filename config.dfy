/** The environment-configured low-fertility simulation of analyze_video (prediction.py):
    reading the five LOW_FERTILITY_* variables and normalising the target range. */
module SimulationSettings {
  import opened Common

  /** The process environment, as `os.environ` holds it. */
  type Env = map<string, string>

  const EnabledKey: string := "LOW_FERTILITY_SIMULATION_ENABLED"
  const ProbabilityKey: string := "LOW_FERTILITY_PROB"
  const NondeterministicKey: string := "LOW_FERTILITY_NONDETERMINISTIC"
  const MinimumKey: string := "LOW_FERTILITY_MIN"
  const MaximumKey: string := "LOW_FERTILITY_MAX"

  datatype SimulationConfig = SimulationConfig(
    enabled: bool, probability: real, nondeterministic: bool, minimum: real, maximum: real)

  /** What the `except` branch falls back to. */
  const Disabled: SimulationConfig := SimulationConfig(false, 0.0, false, 40.0, 60.0)

  /** `os.getenv(key, default)`. */
  function GetEnv(env: Env, key: string, default: string): string
  {
    if key in env then env[key] else default
  }

  /** The accepted spellings of an enabled flag: `in ("1", "true", "True")`. */
  predicate IsTrueFlag(s: string)
  {
    s == "1" || s == "true" || s == "True"
  }

  /** The three strings handed to `float()`, with their defaults. */
  function ProbabilityText(env: Env): string { GetEnv(env, ProbabilityKey, "0") }
  function MinimumText(env: Env): string { GetEnv(env, MinimumKey, "40") }
  function MaximumText(env: Env): string { GetEnv(env, MaximumKey, "60") }

  /** Whether every `float()` call of the configuration block succeeds; `parseFloat` stands
      for Python's float(), with None for the ValueError it raises. */
  predicate AllParse(env: Env, parseFloat: string -> Option<real>)
  {
    parseFloat(ProbabilityText(env)).Some? && parseFloat(MinimumText(env)).Some?
    && parseFloat(MaximumText(env)).Some?
  }

  /** The try/except block that reads the simulation settings. Any failed conversion
      disables the simulation with probability 0 and range 40-60; otherwise the flags
      are read from their spellings and the probability is clamped to [0, 1]. */
  function ReadConfig(env: Env, parseFloat: string -> Option<real>): (c: SimulationConfig)
    ensures 0.0 <= c.probability <= 1.0
    ensures !AllParse(env, parseFloat) ==> c == Disabled
    ensures AllParse(env, parseFloat) ==>
      && c.enabled == IsTrueFlag(GetEnv(env, EnabledKey, "0"))
      && c.nondeterministic == IsTrueFlag(GetEnv(env, NondeterministicKey, "0"))
      && c.minimum == parseFloat(MinimumText(env)).value
      && c.maximum == parseFloat(MaximumText(env)).value
      && (0.0 <= parseFloat(ProbabilityText(env)).value <= 1.0 ==>
            c.probability == parseFloat(ProbabilityText(env)).value)
      && (parseFloat(ProbabilityText(env)).value < 0.0 ==> c.probability == 0.0)
      && (parseFloat(ProbabilityText(env)).value > 1.0 ==> c.probability == 1.0)
    ensures c.enabled ==> IsTrueFlag(GetEnv(env, EnabledKey, "0"))
  {
    var enabled := IsTrueFlag(GetEnv(env, EnabledKey, "0"));
    match parseFloat(ProbabilityText(env))
    case None => Disabled
    case Some(p) =>
      var nondeterministic := IsTrueFlag(GetEnv(env, NondeterministicKey, "0"));
      match parseFloat(MinimumText(env))
      case None => Disabled
      case Some(lo) =>
        match parseFloat(MaximumText(env))
        case None => Disabled
        case Some(hi) => SimulationConfig(enabled, Clamp(0.0, 1.0, p), nondeterministic, lo, hi)
  }

  /** The target range `low_min`, `low_max` computed when the simulation fires: both ends are
      clamped to [0, 100] and a maximum below the minimum collapses onto it. */
  function TargetRange(c: SimulationConfig): (range: (real, real))
    ensures 0.0 <= range.0 <= range.1 <= 100.0
    ensures 0.0 <= c.minimum <= 100.0 ==> range.0 == c.minimum
    ensures c.minimum < 0.0 ==> range.0 == 0.0
    ensures c.minimum > 100.0 ==> range.0 == 100.0
    ensures range.0 <= c.maximum <= 100.0 ==> range.1 == c.maximum
    ensures c.maximum < range.0 ==> range.1 == range.0
    ensures c.maximum > 100.0 ==> range.1 == 100.0
  {
    var lowMin := Max(0.0, Min(100.0, c.minimum));
    var lowMax := Max(lowMin, Min(100.0, c.maximum));
    (lowMin, lowMax)
  }
}
