/** Feature detection for adaptive thinking (src/lib/model-utils.ts). */
module ModelUtils {
  import opened Common

  /** The first CLI version with adaptive thinking. */
  const AdaptiveThinkingMinCliVersion := "2.1.32"

  /** `supportsAdaptiveThinking`: the Opus model on a CLI at least as new as
      the minimum version. `compareVersions` (of the version utilities, not
      part of this model) is a parameter: negative, zero or positive as its
      first argument is older, equal or newer. */
  function SupportsAdaptiveThinking(model: string, cliVersion: Option<string>,
                                    compareVersions: (string, string) -> int): bool {
    if model != "opus" then false
    else if !Truthy(cliVersion) then false
    else compareVersions(cliVersion.value, AdaptiveThinkingMinCliVersion) >= 0
  }

  /** Only the Opus model, with a known non-empty CLI version, qualifies, and
      then exactly when that version is not older than the minimum. */
  lemma AdaptiveThinkingCases(model: string, cliVersion: Option<string>, compareVersions: (string, string) -> int)
    ensures model != "opus" ==> !SupportsAdaptiveThinking(model, cliVersion, compareVersions)
    ensures cliVersion == None || cliVersion == Some("") ==> !SupportsAdaptiveThinking(model, cliVersion, compareVersions)
    ensures model == "opus" && cliVersion.Some? && cliVersion.value != "" ==>
      (SupportsAdaptiveThinking(model, cliVersion, compareVersions) <==> compareVersions(cliVersion.value, "2.1.32") >= 0)
  {
  }

  /** Upgrading the CLI never loses the feature: if a version qualifies, so
      does any version that compares at least as new to it, provided the
      comparison is transitive. */
  lemma AdaptiveThinkingSurvivesUpgrade(newer: string, older: string, compareVersions: (string, string) -> int)
    requires forall a, b, c :: compareVersions(a, b) >= 0 && compareVersions(b, c) >= 0 ==> compareVersions(a, c) >= 0
    requires newer != "" && compareVersions(newer, older) >= 0
    requires SupportsAdaptiveThinking("opus", Some(older), compareVersions)
    ensures SupportsAdaptiveThinking("opus", Some(newer), compareVersions)
  {
  }
}
