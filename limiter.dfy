/**
  The per-node bounds accumulator `Limiter<dim, Number>` of source/limiter.h.

  A caller resets the accumulator, feeds it every incident edge (including
  the node's own self-edge), optionally feeds it the variation indicators of
  the edges, relaxes the bounds with the local mesh size and then reads them.
  Each step updates the object's fields in place.

  Ghost fields record what was accumulated since the last `Reset`, so the
  contracts can say that the bounds are exactly the hull of those values.
*/
module LimiterState {
  import opened LimiterSpec

  /** The state (U_i + U_j) * 0.5 at the midpoint of an edge. */
  function Midpoint(ui: seq<real>, uj: seq<real>): (m: seq<real>)
    requires |ui| == |uj|
    ensures |m| == |ui|
    ensures forall k :: 0 <= k < |m| ==> m[k] == (ui[k] + uj[k]) * 0.5
    ensures forall k :: 0 <= k < |m| ==> Min(ui[k], uj[k]) <= m[k] <= Max(ui[k], uj[k])
  {
    seq(|ui|, k requires 0 <= k < |ui| => (ui[k] + uj[k]) * 0.5)
  }

  /** The midpoint does not depend on the orientation of the edge. */
  lemma MidpointSymmetric(ui: seq<real>, uj: seq<real>)
    requires |ui| == |uj|
    ensures Midpoint(ui, uj) == Midpoint(uj, ui)
  {
    assert forall k :: 0 <= k < |ui| ==> Midpoint(ui, uj)[k] == Midpoint(uj, ui)[k];
  }

  class Limiter {
    /** The compile-time options `limiter_`, `relax_bounds_`, `relaxation_order_`. */
    const limiter: Limiters
    const relaxBounds: bool
    const relaxationOrder: nat

    /** Spatial dimension; a state has `dim + 2` components, density first. */
    const dim: nat
    const problemDimension: nat := dim + 2

    /** `ProblemDescription::specific_entropy`, supplied by the equation of state. */
    const specificEntropy: seq<real> -> real

    var bounds: Bounds
    var variationsI: real
    var rhoRelaxationNumerator: real
    var rhoRelaxationDenominator: real
    var sInterpMax: real

    /** Bar-state densities, neighbour entropies, midpoint entropies and variation edges since the last reset. */
    ghost var rhoBars: seq<real>
    ghost var entropies: seq<real>
    ghost var interpEntropies: seq<real>
    ghost var variationEdges: seq<VariationEdge>

    /** The bounds are the min / max folds, from the reset values, of what was accumulated. */
    ghost predicate BoundsAccumulated()
      reads this
    {
      limiter != None ==>
        bounds.rhoMin == MinOf(MAXV, rhoBars) && bounds.rhoMax == MaxOf(0.0, rhoBars) &&
        (limiter == SpecificEntropy ==>
           bounds.sMin == MinOf(MAXV, entropies) && sInterpMax == MaxOf(0.0, interpEntropies))
    }

    /** The relaxation accumulators are the sums over the accumulated variation edges. */
    ghost predicate VariationsAccumulated()
      reads this
    {
      limiter != None ==>
        rhoRelaxationNumerator == NumeratorOf(variationEdges) &&
        rhoRelaxationDenominator == DenominatorOf(variationEdges)
    }

    /** The options are fixed for the lifetime of the object; the mutable state starts indeterminate. */
    constructor (limiter: Limiters, relaxBounds: bool, relaxationOrder: nat, dim: nat,
                 specificEntropy: seq<real> -> real)
      requires 1 <= dim <= 3
      ensures this.limiter == limiter && this.relaxBounds == relaxBounds
      ensures this.relaxationOrder == relaxationOrder && this.dim == dim
      ensures this.specificEntropy == specificEntropy
      ensures problemDimension == dim + 2
    {
      this.limiter := limiter;
      this.relaxBounds := relaxBounds;
      this.relaxationOrder := relaxationOrder;
      this.dim := dim;
      this.specificEntropy := specificEntropy;
    }

    /**
      `reset`: in every variant but `None`, rho_min := MAXV, rho_max := 0 and
      both relaxation accumulators := 0; in `SpecificEntropy` also
      s_min := MAXV and s_interp_max := 0. The `None` variant changes nothing.
    */
    method Reset()
      modifies this
      ensures limiter == None ==> unchanged(this)
      ensures limiter != None ==>
        bounds == Bounds(MAXV, 0.0, if limiter == SpecificEntropy then MAXV else old(bounds.sMin)) &&
        rhoRelaxationNumerator == 0.0 && rhoRelaxationDenominator == 0.0 &&
        sInterpMax == (if limiter == SpecificEntropy then 0.0 else old(sInterpMax)) &&
        variationsI == old(variationsI) &&
        rhoBars == [] && entropies == [] && interpEntropies == [] && variationEdges == []
      ensures limiter != None ==> BoundsAccumulated() && VariationsAccumulated()
    {
      if limiter == None {
        return;
      }
      bounds := bounds.(rhoMin := MAXV, rhoMax := 0.0);
      rhoRelaxationNumerator := 0.0;
      rhoRelaxationDenominator := 0.0;
      if limiter == SpecificEntropy {
        bounds := bounds.(sMin := MAXV);
        sInterpMax := 0.0;
      }
      rhoBars, entropies, interpEntropies, variationEdges := [], [], [], [];
    }

    /**
      `accumulate`: widens [rho_min, rho_max] to contain the bar-state
      density; in `SpecificEntropy` lowers s_min to entropy_j and, on an
      off-diagonal edge only, raises s_interp_max to the specific entropy of
      the edge midpoint. Keeps the bounds equal to the hull of everything
      accumulated since the last reset.
    */
    method Accumulate(ui: seq<real>, uj: seq<real>, uijBar: seq<real>, entropyJ: real,
                      isDiagonalEntry: bool)
      requires |ui| == problemDimension && |uj| == problemDimension && |uijBar| == problemDimension
      modifies this
      ensures variationsI == old(variationsI) && variationEdges == old(variationEdges)
      ensures rhoRelaxationNumerator == old(rhoRelaxationNumerator)
      ensures rhoRelaxationDenominator == old(rhoRelaxationDenominator)
      ensures limiter == None ==> unchanged(this)
      ensures limiter != None ==>
        bounds.rhoMin == Min(old(bounds.rhoMin), uijBar[0]) &&
        bounds.rhoMax == Max(old(bounds.rhoMax), uijBar[0]) &&
        rhoBars == old(rhoBars) + [uijBar[0]]
      ensures limiter != None ==>
        bounds.rhoMin <= uijBar[0] <= bounds.rhoMax &&
        bounds.rhoMin <= old(bounds.rhoMin) && old(bounds.rhoMax) <= bounds.rhoMax
      ensures limiter == SpecificEntropy ==>
        bounds.sMin == Min(old(bounds.sMin), entropyJ) && entropies == old(entropies) + [entropyJ]
      ensures limiter == SpecificEntropy && isDiagonalEntry ==>
        sInterpMax == old(sInterpMax) && interpEntropies == old(interpEntropies)
      ensures limiter == SpecificEntropy && !isDiagonalEntry ==>
        sInterpMax == Max(old(sInterpMax), specificEntropy(Midpoint(ui, uj))) &&
        sInterpMax >= specificEntropy(Midpoint(ui, uj)) &&
        interpEntropies == old(interpEntropies) + [specificEntropy(Midpoint(ui, uj))]
      ensures limiter != SpecificEntropy ==>
        bounds.sMin == old(bounds.sMin) && sInterpMax == old(sInterpMax) &&
        entropies == old(entropies) && interpEntropies == old(interpEntropies)
      ensures old(BoundsAccumulated()) ==> BoundsAccumulated()
    {
      if limiter == None {
        return;
      }
      ghost var hull0 := BoundsAccumulated();
      ghost var bars0, entropies0, interps0 := rhoBars, entropies, interpEntropies;

      var rhoIJ := uijBar[0];
      bounds := bounds.(rhoMin := Min(bounds.rhoMin, rhoIJ), rhoMax := Max(bounds.rhoMax, rhoIJ));
      rhoBars := rhoBars + [rhoIJ];

      if limiter == SpecificEntropy {
        bounds := bounds.(sMin := Min(bounds.sMin, entropyJ));
        entropies := entropies + [entropyJ];

        if !isDiagonalEntry {
          var sInterp := specificEntropy(Midpoint(ui, uj));
          sInterpMax := Max(sInterpMax, sInterp);
          interpEntropies := interpEntropies + [sInterp];
        }
      }

      if hull0 {
        assert BoundsAccumulated() by {
          FoldAppend(MAXV, bars0, rhoIJ);
          FoldAppend(0.0, bars0, rhoIJ);
          if limiter == SpecificEntropy {
            FoldAppend(MAXV, entropies0, entropyJ);
            if !isDiagonalEntry {
              FoldAppend(0.0, interps0, specificEntropy(Midpoint(ui, uj)));
            }
          }
        }
      }
    }

    /** `reset_variations`: records variations_i and clears neither accumulator. */
    method ResetVariations(newVariationsI: real)
      modifies this`variationsI
      ensures variationsI == newVariationsI
      ensures rhoRelaxationNumerator == old(rhoRelaxationNumerator)
      ensures rhoRelaxationDenominator == old(rhoRelaxationDenominator)
      ensures VariationsAccumulated() == old(VariationsAccumulated())
      ensures BoundsAccumulated() == old(BoundsAccumulated())
    {
      variationsI := newVariationsI;
    }

    /**
      `accumulate_variations`: adds (8 * 0.5) beta_ij (variations_i + variations_j)
      to the numerator and beta_ij to the denominator, and nothing else.
    */
    method AccumulateVariations(variationsJ: real, betaIJ: real)
      modifies this`rhoRelaxationNumerator, this`rhoRelaxationDenominator, this`variationEdges
      ensures rhoRelaxationNumerator == old(rhoRelaxationNumerator) + 4.0 * betaIJ * (variationsI + variationsJ)
      ensures rhoRelaxationDenominator == old(rhoRelaxationDenominator) + betaIJ
      ensures variationEdges == old(variationEdges) + [VariationEdge(variationsI, variationsJ, betaIJ)]
      ensures old(VariationsAccumulated()) ==> VariationsAccumulated()
      ensures BoundsAccumulated() == old(BoundsAccumulated())
    {
      SumsAppend(variationEdges, VariationEdge(variationsI, variationsJ, betaIJ));
      rhoRelaxationNumerator := rhoRelaxationNumerator + (8.0 * 0.5) * betaIJ * (variationsI + variationsJ);
      rhoRelaxationDenominator := rhoRelaxationDenominator + betaIJ;
      variationEdges := variationEdges + [VariationEdge(variationsI, variationsJ, betaIJ)];
    }

    /**
      `apply_relaxation`: with r_i = 2 (hd_i^{1/4})^p and
      rho_relaxation = |num| / (|den| + eps), replaces each bound by the
      tighter of its multiplicative and additive relaxation. Only widens an
      ordered nonnegative density interval, so rho_min <= rho_max survives;
      a relaxed hull of nonnegative densities still contains all of them.
      Changes nothing when relaxation is off or the variant is `None`.
      `hdRoot4` is the value sqrt(sqrt(hd_i)) that the square root routine
      returns.
    */
    method ApplyRelaxation(ghost hd: real, hdRoot4: real)
      requires hdRoot4 >= 0.0 && hdRoot4 * hdRoot4 * hdRoot4 * hdRoot4 == hd
      modifies this`bounds
      ensures old(VariationsAccumulated()) ==> VariationsAccumulated()
      ensures !relaxBounds || limiter == None ==> bounds == old(bounds)
      ensures relaxBounds && limiter != None ==>
        bounds == Relax(old(bounds), limiter, RelaxationRadius(hdRoot4, relaxationOrder),
                        RhoRelaxation(rhoRelaxationNumerator, rhoRelaxationDenominator), sInterpMax)
      ensures 0.0 <= old(bounds.rhoMin) <= old(bounds.rhoMax) ==>
        bounds.rhoMin <= old(bounds.rhoMin) && old(bounds.rhoMax) <= bounds.rhoMax &&
        bounds.rhoMin <= bounds.rhoMax
      ensures limiter == SpecificEntropy && old(bounds.sMin) >= 0.0 && sInterpMax >= old(bounds.sMin) ==>
        bounds.sMin <= old(bounds.sMin)
      ensures limiter != None && old(BoundsAccumulated()) && |rhoBars| > 0 &&
              (forall k :: 0 <= k < |rhoBars| ==> rhoBars[k] >= 0.0) ==>
        bounds.rhoMin <= bounds.rhoMax &&
        forall k :: 0 <= k < |rhoBars| ==> bounds.rhoMin <= rhoBars[k] <= bounds.rhoMax
    {
      HullOrdered(MAXV, 0.0, rhoBars);
      FoldBounds(MAXV, rhoBars);
      FoldBounds(0.0, rhoBars);
      if !relaxBounds {
        return;
      }
      if limiter == None {
        return;
      }
      var rI := RelaxationRadius(hdRoot4, relaxationOrder);
      var rhoRelaxation := RhoRelaxation(rhoRelaxationNumerator, rhoRelaxationDenominator);
      if 0.0 <= bounds.rhoMin <= bounds.rhoMax {
        RelaxWidens(bounds, limiter, rI, rhoRelaxation, sInterpMax);
      }
      if BoundsAccumulated() && |rhoBars| > 0 && (forall k :: 0 <= k < |rhoBars| ==> rhoBars[k] >= 0.0) {
        RelaxedHullContainsStencil(rhoBars, rI, rhoRelaxation);
      }

      var rhoMin := RelaxLower(bounds.rhoMin, rI, rhoRelaxation);
      var rhoMax := RelaxUpper(bounds.rhoMax, rI, rhoRelaxation);
      bounds := bounds.(rhoMin := rhoMin, rhoMax := rhoMax);

      if limiter == SpecificEntropy {
        bounds := bounds.(sMin := RelaxEntropy(bounds.sMin, rI, sInterpMax));
      }
    }

    /**
      `bounds()`: the current bounds. After a reset and at least one
      accumulation they are an ordered interval containing every accumulated
      bar-state density.
    */
    function CurrentBounds(): (b: Bounds)
      reads this
      ensures limiter != None && BoundsAccumulated() && |rhoBars| > 0 ==>
        b.rhoMin <= b.rhoMax && forall k :: 0 <= k < |rhoBars| ==> b.rhoMin <= rhoBars[k] <= b.rhoMax
      ensures limiter != None && BoundsAccumulated() && |rhoBars| == 0 ==>
        b.rhoMin == MAXV && b.rhoMax == 0.0
    {
      FoldBounds(MAXV, rhoBars);
      FoldBounds(0.0, rhoBars);
      HullOrdered(MAXV, 0.0, rhoBars);
      bounds
    }
  }
}
