/** The class-index-to-character tables of `helper_functions.js`.
    A class index is what the classifier's arg-max returns; the result is a
    character code (handed to `String.fromCharCode` by the caller) or a shape
    name. A lookup outside a table's range yields `undefined`, modelled as `None`. */
module Mappings {
  import opened Wrappers

  /** Reference alphabets the tables are stated against. */
  const Digits: string := "0123456789"
  const Uppercase: string := "ABCDEFGHIJKLMNOPQRSTUVWXYZ"
  /** The eleven lowercase letters that the merged (balanced) label set keeps
      apart from their uppercase forms. */
  const MergedLowercase: string := "abdefghnqrt"

  /** `digitMapping`: a digit class is offset to the code of '0'. */
  function DigitMapping(classIndex: int): (code: int)
    ensures 0 <= classIndex <= 9 <==> '0' as int <= code <= '9' as int
    ensures 0 <= classIndex <= 9 ==> code as char == Digits[classIndex]
  {
    classIndex + 48
  }

  /** `letterMapping`: a zero-based letter class is offset to the code of 'A'. */
  function LetterMapping(classIndex: int): (code: int)
    ensures 0 <= classIndex <= 25 <==> 'A' as int <= code <= 'Z' as int
    ensures 0 <= classIndex <= 25 ==> code as char == Uppercase[classIndex]
  {
    classIndex + 65
  }

  /** The letter page passes `predictedClass - 1`: the letter model's classes
      are one-based, so class k in 1..26 names the k-th letter of the alphabet. */
  lemma LetterClassIsOneBased(predictedClass: int)
    requires 1 <= predictedClass <= 26
    ensures LetterMapping(predictedClass - 1) as char == Uppercase[predictedClass - 1]
    ensures LetterMapping(predictedClass - 1) == 'A' as int + predictedClass - 1
  {
  }

  /** The 47 character codes of the merged model, in class order, written
      row by row as the array literal lays them out. */
  const MergedCodes: seq<int> :=
    [48, 49, 50, 51, 52, 53, 54, 55, 56, 57] +
    [65, 66, 67, 68, 69, 70, 71, 72, 73, 74] +
    [75, 76, 77, 78, 79, 80, 81, 82, 83, 84] +
    [85, 86, 87, 88, 89, 90, 97, 98, 100, 101] +
    [102, 103, 104, 110, 113, 114, 116]

  /** `mergedMapping`: classes 0..9 are the digits, 10..35 the uppercase
      letters and 36..46 the lowercase letters of `MergedLowercase`; any
      other index reads past the array and gives `undefined`. */
  function MergedMapping(classIndex: int): (code: Option<int>)
    ensures code.Some? <==> 0 <= classIndex < 47
    ensures 0 <= classIndex <= 9 ==> code == Some(DigitMapping(classIndex))
    ensures 10 <= classIndex <= 35 ==> code == Some(LetterMapping(classIndex - 10))
    ensures 36 <= classIndex <= 46 ==> code == Some(MergedLowercase[classIndex - 36] as int)
  {
    if 0 <= classIndex < |MergedCodes| then Some(MergedCodes[classIndex]) else None
  }

  /** A sequence whose neighbours increase is increasing throughout. */
  lemma {:induction false} IncreasingFromNeighbours(s: seq<int>, i: int, j: int)
    requires forall k :: 0 <= k < |s| - 1 ==> s[k] < s[k + 1]
    requires 0 <= i < j < |s|
    ensures s[i] < s[j]
    decreases j - i
  {
    if i + 1 < j {
      IncreasingFromNeighbours(s, i + 1, j);
    }
  }

  /** The merged table is strictly increasing in the class index. */
  lemma MergedStrictlyIncreasing(i: int, j: int)
    requires 0 <= i < j < 47
    ensures MergedMapping(i).Some? && MergedMapping(j).Some?
    ensures MergedMapping(i).value < MergedMapping(j).value
  {
    assert forall k :: 0 <= k < |MergedCodes| - 1 ==> MergedCodes[k] < MergedCodes[k + 1];
    IncreasingFromNeighbours(MergedCodes, i, j);
  }

  /** Distinct merged classes name distinct characters. */
  lemma MergedInjective(i: int, j: int)
    requires MergedMapping(i).Some? && MergedMapping(j).Some?
    requires MergedMapping(i) == MergedMapping(j)
    ensures i == j
  {
    if i < j {
      MergedStrictlyIncreasing(i, j);
    } else if j < i {
      MergedStrictlyIncreasing(j, i);
    }
  }

  /** The shape object: keys '0'..'10', looked up with a numeric class index. */
  const ShapeNames: map<int, string> := map[
    0 := "Circle",
    1 := "Diamond",
    2 := "Heart",
    3 := "Moon",
    4 := "Oval",
    5 := "Parallelogram",
    6 := "Rectangle",
    7 := "Square",
    8 := "Star",
    9 := "Trapezoid",
    10 := "Triangle"
  ]

  /** `shapeMapping`: defined exactly on the classes 0..10. */
  function ShapeMapping(classIndex: int): (name: Option<string>)
    ensures name.Some? <==> 0 <= classIndex <= 10
  {
    if classIndex in ShapeNames then Some(ShapeNames[classIndex]) else None
  }

  /** The eleven shape classes have eleven different names. */
  lemma ShapeNamesDistinct(i: int, j: int)
    requires 0 <= i <= 10 && 0 <= j <= 10 && i != j
    ensures ShapeMapping(i) != ShapeMapping(j)
  {
  }
}
