/** Text colour for coloured labels (src/lib/label-colors.ts). */
module LabelColors {
  import opened Common

  /** The label backgrounds light enough to need black text. */
  const LabelContrastLightColors: seq<string> := ["#eab308", "#22c55e", "#3b82f6", "#06b6d4", "#84cc16", "#f97316"]

  /** The two text colours. */
  datatype TextColor = Black | White

  /** `getLabelTextColor`: black on the listed light backgrounds, white on
      anything else (the comparison is exact, so case matters). */
  function LabelTextColor(bgColor: string): TextColor {
    if bgColor in LabelContrastLightColors then Black else White
  }

  /** Six distinct light colours are listed, all written in lower case. */
  lemma LightColorsAreSixDistinct()
    ensures |LabelContrastLightColors| == 6 && Distinct(LabelContrastLightColors)
    ensures forall k, j :: 0 <= k < 6 && 0 <= j < |LabelContrastLightColors[k]| ==> !('A' <= LabelContrastLightColors[k][j] <= 'Z')
  {
  }

  /** Black exactly on the listed colours; in particular an upper-case
      spelling of a listed colour gets white text. */
  lemma LabelTextColorCases(bgColor: string)
    ensures LabelTextColor(bgColor) == Black <==> exists k :: 0 <= k < 6 && LabelContrastLightColors[k] == bgColor
    ensures (exists j :: 0 <= j < |bgColor| && 'A' <= bgColor[j] <= 'Z') ==> LabelTextColor(bgColor) == White
  {
    LightColorsAreSixDistinct();
    if bgColor in LabelContrastLightColors {
      var k :| 0 <= k < 6 && LabelContrastLightColors[k] == bgColor;
    }
  }
}
