/** The parameter-sizing policy: the length of the model's parameter vector
    as a function of the family, the largest feature index, the largest
    field id and the latent dimension K. */
module Sizing {

  /** `num_param` by family: "fm" and "ffm" add latent blocks; every other
      `score_func` (in particular "linear") keeps the bias and one weight per
      feature index. */
  function NumParam(scoreFunc: string, maxFeat: nat, maxField: nat, k: nat): (n: nat)
    ensures n >= maxFeat + 1
  {
    if scoreFunc == "fm" then
      maxFeat + 1 + maxFeat * k
    else if scoreFunc == "ffm" then
      maxFeat + 1 + maxFeat * maxField * k
    else
      maxFeat + 1
  }

  /** Independent reading of the layout: how many latent parameters each
      feature index 1..maxFeat owns beyond its linear weight. */
  function LatentPerFeature(scoreFunc: string, maxField: nat, k: nat): nat {
    match scoreFunc
    case "fm" => k
    case "ffm" => maxField * k
    case _ => 0
  }

  /** One bias slot, then per feature index a linear weight plus its latent
      block: the table of every family agrees with this layout. */
  lemma NumParamLayout(scoreFunc: string, maxFeat: nat, maxField: nat, k: nat)
    ensures NumParam(scoreFunc, maxFeat, maxField, k)
         == 1 + maxFeat * (1 + LatentPerFeature(scoreFunc, maxField, k))
  {
    var l := LatentPerFeature(scoreFunc, maxField, k);
    assert maxFeat * (1 + l) == maxFeat + maxFeat * l;
    if scoreFunc == "ffm" {
      assert maxFeat * (maxField * k) == maxFeat * maxField * k;
    }
  }

  /** Products of naturals grow with each factor. */
  lemma MulMonotone(a: nat, b: nat, c: nat, d: nat)
    requires a <= c && b <= d
    ensures a * b <= c * d
  {
    assert a * b <= c * b;
    assert c * b <= c * d;
  }

  /** Larger dimensions never shrink the parameter vector. */
  lemma NumParamMonotone(scoreFunc: string, f1: nat, fld1: nat, k1: nat, f2: nat, fld2: nat, k2: nat)
    requires f1 <= f2 && fld1 <= fld2 && k1 <= k2
    ensures NumParam(scoreFunc, f1, fld1, k1) <= NumParam(scoreFunc, f2, fld2, k2)
  {
    NumParamLayout(scoreFunc, f1, fld1, k1);
    NumParamLayout(scoreFunc, f2, fld2, k2);
    var l1 := LatentPerFeature(scoreFunc, fld1, k1);
    var l2 := LatentPerFeature(scoreFunc, fld2, k2);
    if scoreFunc == "ffm" {
      MulMonotone(fld1, k1, fld2, k2);
    }
    MulMonotone(f1, 1 + l1, f2, 1 + l2);
  }

  /** Each family reads only its own dimensions: the field count matters to
      "ffm" alone, K to "fm" and "ffm" alone. */
  lemma NumParamIgnoresForeignDims(scoreFunc: string, maxFeat: nat, fld1: nat, fld2: nat, k1: nat, k2: nat)
    ensures scoreFunc != "ffm" ==> NumParam(scoreFunc, maxFeat, fld1, k1) == NumParam(scoreFunc, maxFeat, fld2, k1)
    ensures scoreFunc != "fm" && scoreFunc != "ffm" ==> NumParam(scoreFunc, maxFeat, fld1, k1) == NumParam(scoreFunc, maxFeat, fld1, k2)
  {
  }

  /** An "ffm" model over a single field is sized like an "fm" model, and
      without latent factors every family is sized like a linear one. */
  lemma NumParamDegenerate(maxFeat: nat, maxField: nat, k: nat)
    ensures NumParam("ffm", maxFeat, 1, k) == NumParam("fm", maxFeat, maxField, k)
    ensures NumParam("fm", maxFeat, maxField, 0) == NumParam("linear", maxFeat, maxField, k)
    ensures NumParam("ffm", maxFeat, maxField, 0) == NumParam("linear", maxFeat, maxField, k)
  {
  }

  /** Worked examples of the table. */
  lemma NumParamExamples()
    ensures NumParam("fm", 100, 0, 4) == 501
    ensures NumParam("ffm", 50, 3, 8) == 1251
    ensures NumParam("linear", 7, 0, 0) == 8
  {
  }
}
