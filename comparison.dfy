/**
 * The data of the function-comparison report: the trained model and the
 * target sampled on an evenly spaced grid. The report's markup is not part
 * of this model.
 */
module Comparison {

  /** The `i`-th of `numPoints` evenly spaced points starting at `xMin`, `numPoints - 1` steps to `xMax`. */
  function GridPoint(xMin: real, xMax: real, numPoints: nat, i: nat): real
    requires numPoints >= 2
  {
    xMin + i as real * ((xMax - xMin) / (numPoints - 1) as real)
  }

  /** The grid starts at `xMin` and ends exactly at `xMax`. */
  lemma GridEndpoints(xMin: real, xMax: real, numPoints: nat)
    requires numPoints >= 2
    ensures GridPoint(xMin, xMax, numPoints, 0) == xMin
    ensures GridPoint(xMin, xMax, numPoints, numPoints - 1) == xMax
  {
    var steps := (numPoints - 1) as real;
    assert steps * ((xMax - xMin) / steps) == xMax - xMin;
  }

  /** On an ascending interval the grid ascends. */
  lemma GridMonotone(xMin: real, xMax: real, numPoints: nat, i: nat, j: nat)
    requires numPoints >= 2 && xMin <= xMax && i <= j
    ensures GridPoint(xMin, xMax, numPoints, i) <= GridPoint(xMin, xMax, numPoints, j)
  {
    var step := (xMax - xMin) / (numPoints - 1) as real;
    assert step >= 0.0;
    assert (j - i) as real * step >= 0.0;
    assert j as real * step - i as real * step == (j - i) as real * step;
  }

  /**
   * The sampling loop of the comparison report: for each grid point, its
   * x-value, the trained model's value and the target's value, in order.
   * The x-values run from `xMin` to `xMax`, ascending when `xMin <= xMax`.
   */
  method SampleFunctions(trained: real -> real, target: real -> real, xMin: real, xMax: real, numPoints: nat)
    returns (xValues: seq<real>, trainedData: seq<real>, targetData: seq<real>)
    requires numPoints >= 2
    ensures |xValues| == |trainedData| == |targetData| == numPoints
    ensures forall i :: 0 <= i < numPoints ==>
      xValues[i] == GridPoint(xMin, xMax, numPoints, i) &&
      trainedData[i] == trained(xValues[i]) && targetData[i] == target(xValues[i])
    ensures xValues[0] == xMin && xValues[numPoints - 1] == xMax
    ensures xMin <= xMax ==> forall i, j :: 0 <= i <= j < numPoints ==> xValues[i] <= xValues[j]
  {
    var step := (xMax - xMin) / (numPoints - 1) as real;
    xValues, trainedData, targetData := [], [], [];
    for i := 0 to numPoints
      invariant |xValues| == |trainedData| == |targetData| == i
      invariant forall k :: 0 <= k < i ==>
        xValues[k] == GridPoint(xMin, xMax, numPoints, k) &&
        trainedData[k] == trained(xValues[k]) && targetData[k] == target(xValues[k])
    {
      var x := xMin + i as real * step;
      xValues := xValues + [x];
      trainedData := trainedData + [trained(x)];
      targetData := targetData + [target(x)];
    }
    GridEndpoints(xMin, xMax, numPoints);
    if xMin <= xMax {
      forall i, j | 0 <= i <= j < numPoints
        ensures xValues[i] <= xValues[j]
      {
        GridMonotone(xMin, xMax, numPoints, i, j);
      }
    }
  }
}
