# Bounds accumulator of the ryujin convex limiter, in Dafny

This project models `Limiter<dim, Number>` from `source/limiter.h`. It is the
per-node state machine that the convex-limiting engine of ryujin (an
invariant-domain-preserving Euler solver) drives once for every mesh node.
A caller runs it in four steps:

1. `reset()` puts the bounds {rho_min, rho_max, s_min} and the relaxation
   accumulators into their start state.
2. `accumulate()` is called once per incident edge, self-edge included. It
   widens [rho_min, rho_max] to contain the density of the edge's bar state.
   In the specific-entropy variant it also lowers s_min to the neighbour's
   specific entropy, and on off-diagonal edges it raises `s_interp_max` to
   the specific entropy of the edge midpoint (U_i + U_j) / 2.
3. `reset_variations()` / `accumulate_variations()` build a beta-weighted
   numerator and denominator from the variation indicators of the edges.
4. `apply_relaxation(hd_i)` widens each bound by the tighter of two caps.
   One is multiplicative, with r_i = 2 (hd_i^{1/4})^p. The other is
   additive, with |num| / (|den| + eps).

The project has two files:

- `limiter_spec.dfy`, module `LimiterSpec`, holds the pure parts:
  - the limiter variants (`Limiters`: None, Rho, SpecificEntropy,
    EntropyInequality) and the `Bounds` triple;
  - the constants `MAXV` (the exact largest `double`) and `EPS` (2^-52,
    the `double` machine epsilon);
  - the min/max folds that accumulation computes (`MinOf`, `MaxOf`);
  - the variation sums (`NumeratorOf`, `DenominatorOf`);
  - the relaxation formulas (`RelaxationRadius`, `RhoRelaxation`,
    `RelaxLower`, `RelaxUpper`, `RelaxEntropy`, `Relax`);
  - the lemmas that relate all of these.
- `limiter.dfy`, module `LimiterState`, holds the class `Limiter`:
  - its options are constants fixed at construction: the variant,
    `relaxBounds`, `relaxationOrder`, `dim`, and the equation of state's
    `specificEntropy`;
  - its mutable fields are the ones the source updates in place: `bounds`,
    `variationsI`, `rhoRelaxationNumerator`, `rhoRelaxationDenominator` and
    `sInterpMax`;
  - each method states the whole new state in terms of the old one;
  - ghost fields record every value accumulated since the last `Reset`. In
    every variant but None, the predicates `BoundsAccumulated` and
    `VariationsAccumulated` tie the real fields to those records. The bounds
    are then exactly the min/max folds, and the accumulators exactly the
    sums. `Reset` establishes both predicates. `Accumulate`,
    `ResetVariations` and `AccumulateVariations` keep them. `ApplyRelaxation`
    keeps `VariationsAccumulated` and replaces the bounds by their
    relaxation, which still contains every accumulated density.

States are `seq<real>` of length `dim + 2`, with density at index 0. The
model treats one SIMD lane over exact reals.

Behaviour worth knowing, as the code has it:

- In the Rho and EntropyInequality variants, `reset` leaves s_min untouched.
  `accumulate` and `apply_relaxation` never touch it there either.
- In the None variant, `reset`, `accumulate` and `apply_relaxation` change
  nothing. `accumulate_variations` still adds to the accumulators.
- `reset_variations` clears neither accumulator; only `reset` does.
- The entropy relaxation max((1 - r_i) s_min, 2 s_min - s_interp_max) lowers
  s_min only when s_interp_max >= s_min >= 0. At a node without off-diagonal
  edges, s_interp_max keeps its reset value 0. A positive s_min is then
  raised, not lowered (`EntropyRelaxationCanTighten`).
- `reset` sets rho_min, and in the SpecificEntropy variant also s_min, to
  `std::numeric_limits<ScalarNumber>::max()` (source/limiter.h:109 and 116),
  a finite value and not +infinity. The model uses that value for `double`
  (`MAXV`).
- `limit` is declared but not defined in `source/limiter.h`. Its declared
  contract is modelled as the predicate `IsLimitResult`: t lies in
  [t_min, t_max], U + t P obeys the selected principles, and no larger t up
  to t_max does. The lemmas below are about that predicate.

## Model

| member | source | states |
|---|---|---|
| `LimiterState.Limiter.constructor` | source/limiter.h:41-50 | The variant, the relaxation switch and the relaxation order are fixed for the object's lifetime; a state has dim + 2 components. |
| `LimiterState.Limiter.Reset` | source/limiter.h:102-119 | Outside None: rho_min = MAXV, rho_max = 0, both accumulators 0; in SpecificEntropy also s_min = MAXV and s_interp_max = 0, otherwise s_min and s_interp_max are kept; variations_i is kept. None: nothing changes. Afterwards the bounds are the folds of an empty history. |
| `LimiterState.Limiter.Accumulate` | source/limiter.h:123-150 | Outside None: rho_min <= U_ij_bar[0] <= rho_max afterwards, rho_min never rises and rho_max never falls. SpecificEntropy: s_min <= entropy_j and never rises; s_interp_max changes only on off-diagonal edges, and then is >= the specific entropy of the midpoint. The relaxation fields are untouched. None: nothing changes. Keeps the bounds equal to the hull of all values accumulated since the reset. |
| `LimiterState.Limiter.ResetVariations` | source/limiter.h:153-158 | Sets variations_i and changes neither accumulator. |
| `LimiterState.Limiter.AccumulateVariations` | source/limiter.h:161-171 | Adds exactly 4 beta_ij (variations_i + variations_j) to the numerator and beta_ij to the denominator, changes nothing else, and keeps the accumulators equal to the sums over the recorded edges. |
| `LimiterState.Limiter.ApplyRelaxation` | source/limiter.h:174-202 | Keeps `VariationsAccumulated`. No change to the bounds when relaxation is off or the variant is None. Otherwise the bounds become the relaxation of the old ones. If 0 <= rho_min <= rho_max before, rho_min does not rise, rho_max does not fall and rho_min <= rho_max afterwards. If 0 <= s_min <= s_interp_max, s_min does not rise. A relaxed hull of nonnegative accumulated densities still contains every one of them. |
| `LimiterState.Limiter.CurrentBounds` | source/limiter.h:205-210 | Outside None: after a reset and at least one accumulation, the returned bounds are ordered and contain every accumulated bar-state density; with no accumulation they are (MAXV, 0). |
| `LimiterState.Midpoint` | source/limiter.h:144-146 | The midpoint state has the length of its arguments; each component is the average of theirs and lies between the two endpoint components. |
| `LimiterState.MidpointSymmetric` | source/limiter.h:144-146 | Documents that the s_interp_max contribution of an edge does not depend on its orientation: the midpoint of (U_i, U_j) equals that of (U_j, U_i). |
| `LimiterSpec.FoldBounds` | source/limiter.h:135-137 | Repeated min / max from a start value bracket that start value and every value folded in. |
| `LimiterSpec.FoldAttained` | source/limiter.h:135-137 | The repeated min / max is its start value or one of the values folded in. |
| `LimiterSpec.FoldAppend` | source/limiter.h:136-137 | Accumulating one more value is exactly one more `std::min` / `std::max` step. |
| `LimiterSpec.HullOrdered` | source/limiter.h:135-137 | Once one value is folded in, the min fold is at most the max fold, whatever the start values. |
| `LimiterSpec.SumsAppend` | source/limiter.h:167-170 | One more accumulated edge adds its term to the numerator sum and its beta to the denominator sum. |
| `LimiterSpec.NumeratorWeighted` | source/limiter.h:166-170 | With nonnegative betas and variations in [0, v], the denominator is nonnegative and 0 <= numerator <= 8 v times the denominator. |
| `LimiterSpec.Pow` | source/limiter.h:186-188 | `fixed_power` of a nonnegative base is nonnegative, and at most 1 for a base in [0, 1]. |
| `LimiterSpec.PowMonotone` | source/limiter.h:186-188 | `fixed_power` is monotone in a nonnegative base. |
| `LimiterSpec.RelaxationRadius` | source/limiter.h:186-188 | r_i >= 0, and r_i = 0 when hd_i = 0 and p > 0. |
| `LimiterSpec.RadiusShrinksWithMesh` | source/limiter.h:186-188 | A smaller hd_i never gives a larger r_i. |
| `LimiterSpec.RhoRelaxation` | source/limiter.h:190-193 | The additive cap is defined for every accumulator value, including den = 0. It is >= 0, at most abs(num) / eps, equal to abs(num) / eps when den = 0, and 0 when num = 0. |
| `LimiterSpec.RhoRelaxationBounded` | source/limiter.h:166-193 | With nonnegative betas and variations in [0, v], the additive cap is at most 8 v. |
| `LimiterSpec.RelaxLower` | source/limiter.h:195 | The relaxed rho_min is no lower than either cap. For r_i, rel, rho_min >= 0 it is at most rho_min, and for r_i <= 1 it stays nonnegative. |
| `LimiterSpec.RelaxUpper` | source/limiter.h:196 | The relaxed rho_max is no higher than either cap. For r_i, rel, rho_max >= 0 it is at least rho_max. |
| `LimiterSpec.RelaxEntropy` | source/limiter.h:198-201 | The relaxed s_min is no lower than either cap. For r_i >= 0 and 0 <= s_min <= s_interp_max it is at most s_min. |
| `LimiterSpec.EntropyRelaxationCanTighten` | source/limiter.h:198-201 | For every s_min and r_i: whenever s_interp_max < s_min (for instance a positive s_min with s_interp_max at its reset value 0), the relaxed s_min is strictly larger than s_min. |
| `LimiterSpec.RelaxWidens` | source/limiter.h:195-201 | For 0 <= rho_min <= rho_max and nonnegative r_i and rel, relaxation only widens the density interval and keeps it ordered. |
| `LimiterSpec.RelaxedHullContainsStencil` | source/limiter.h:186-196 | Accumulating nonnegative densities from (MAXV, 0) and then relaxing gives an ordered interval that contains every accumulated density. |
| `LimiterSpec.DensityAdmissibleConvex` | source/limiter.h:72-82 | Density is affine in t, so the t for which U + t P obeys the density bounds form an interval: between two admissible t every t is admissible. Existence of the maximal t comes from `DensityLimitWitness` / `LimitResultExists`, its uniqueness from `LimitResultUnique`. |
| `LimiterSpec.UpdateAlong` | source/limiter.h:72-82 | The density of the state U + t P that the entropy bound is evaluated at is the density the density bounds constrain (`DensityAlong`), and t = 0 gives back the unlimited state U. |
| `LimiterSpec.Admissible` | source/limiter.h:72-76 | The selected local principles along U + t P: nothing in None; the density bounds rho_min <= (U + t P)[0] <= rho_max in Rho and EntropyInequality; in SpecificEntropy also specific_entropy(U + t P) >= s_min. |
| `LimiterSpec.IsLimitResult` | source/limiter.h:72-76 | The declared contract of `limit`: t in the closed interval [t_min, t_max], U + t P admissible, and no admissible t' in (t, t_max]. Consequences stated on it: when t_max is admissible the result is t_max (no limiting), and with t_min == t_max the result is t_min. |
| `LimiterSpec.LimitResultUnique` | source/limiter.h:72-82 | In every variant, at most one t meets the declared contract of `limit`, so the contract determines the result. |
| `LimiterSpec.LimitMonotoneInBounds` | source/limiter.h:72-82 | Tighter bounds (larger rho_min and s_min, smaller rho_max) never give a larger result of `limit`. |
| `LimiterSpec.AffineCrossing` | source/limiter.h:72-82 | Along a line of nonzero slope, the density stays on the near side of a bound exactly up to the crossing point (target - U[0]) / P[0]. |
| `LimiterSpec.DensityLimitWitness` | source/limiter.h:72-82 | When U + t_min P obeys the density bounds, some t in [t_min, t_max] obeys them and no larger t up to t_max does. |
| `LimiterSpec.LimitResultExists` | source/limiter.h:72-82 | Outside SpecificEntropy, a result meeting the declared contract of `limit` exists whenever t_min is admissible. |
| `LimiterSpec.LimitResultPrefixAdmissible` | source/limiter.h:72-82 | Outside SpecificEntropy, when t_min is admissible, every t between t_min and the result of `limit` is admissible too. |

## Left out

- The body of `Limiter::limit` (the density interval solve and the Newton/bisection entropy search) is not part of this model, because it is not in `source/limiter.h`. Only the declared contract is there, and it is modelled as `IsLimitResult`.
- `LimiterSpec.IsLimitResult`: the doc comment (source/limiter.h:72-76) writes the result interval as t_min < t < t_max; the model uses the closed interval [t_min, t_max]. Under the strict reading a maximal t usually does not exist: when t_max itself is admissible the admissible t below t_max have no largest element, and the result could never be 1, that is, no limiting.
- `LimiterSpec.Admissible`: the entropy-inequality principle of the EntropyInequality variant is not modelled. Its formula is in the missing implementation of `limit`, so that variant is held to the density bounds only.
- `LimiterSpec.LimitResultExists`: existence is not proved for SpecificEntropy. `specificEntropy` is an arbitrary function here, with no continuity assumed, so a maximal admissible t need not exist.
- `LimiterState.Limiter.CurrentBounds` returns a copy of `bounds`, not a const reference. A C++ caller that keeps the reference sees later updates, and the model's caller does not. No operation of the core relies on this.
- `ProblemDescription::specific_entropy` is external. It is the constructor-fixed function value `specificEntropy`, about which nothing is assumed. `problem_description.h` is not part of this model.
- `std::sqrt(std::sqrt(hd_i))` is external. `ApplyRelaxation` receives its value `hdRoot4`, with the requirement that `hdRoot4` is the nonnegative fourth root of hd_i.
- Floating-point rounding, NaN and infinity are not modelled. Everything is exact real arithmetic, including `fixed_power`, the division in `RhoRelaxation` and the products in the relaxation formulas.
- The SIMD `VectorizedArray` lanes are not modelled. One lane is modelled. `Number = float` is not modelled either: the constants are those of `double`.
- `LimiterState.Limiter.constructor` leaves the mutable fields unspecified, like the empty C++ constructor. Nothing is promised about them until `Reset`.
- `BoundsAccumulated` and `VariationsAccumulated` are claimed only outside the None variant. In None, `reset` clears nothing, so no accumulation history exists to relate the fields to.
- `source/offline_data.template.h`, `source/initial_values.template.h` and `source/dissipation_module.h` are outside the limiter core. They cover DoF distribution, MPI and parallel assembly, randomised and trigonometric initial states, and declarations of a multigrid solver.
