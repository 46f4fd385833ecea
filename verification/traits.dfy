/** The five personality traits, in the fixed order that assigns each one its
    axis of the radar chart. */
module Traits {

  const TRAITS: seq<string> :=
    ["Extraversion", "Agreeableness", "Conscientiousness", "Neuroticism", "Openness"]

  /** There are five traits and no name occurs twice, so trait i owns axis i. */
  lemma TraitsAreFiveDistinct()
    ensures |TRAITS| == 5
    ensures forall i, j :: 0 <= i < j < |TRAITS| ==> TRAITS[i] != TRAITS[j]
  {
  }
}
