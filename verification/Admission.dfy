/**
 * The byte budget of a cross-meeting analysis and the check that guards the call
 * of the generator (internal/execution/admission.go, internal/api/cross_analysis.go).
 */
module Admission {
  import opened Options
  import opened Text

  datatype AdmissionConfig = AdmissionConfig(
    contextTokens: int,
    outputReserveTokens: int,
    providerFramingTokens: int,
    byteFallbackTokenizer: bool)

  datatype Admitted = Admits | InvalidConfig | OverBudget

  function Effective(cfg: AdmissionConfig): int {
    cfg.contextTokens - cfg.outputReserveTokens - cfg.providerFramingTokens
  }

  /** Counts one token for every byte of a complete section prompt. */
  function Admit(prompts: seq<string>, cfg: AdmissionConfig): Admitted {
    if cfg.contextTokens <= 0 then InvalidConfig
    else if cfg.outputReserveTokens < 0 || cfg.providerFramingTokens < 0 then InvalidConfig
    else if !cfg.byteFallbackTokenizer then InvalidConfig
    else if Effective(cfg) <= 0 then InvalidConfig
    else if exists k :: 0 <= k < |prompts| && |prompts[k]| > Effective(cfg) then OverBudget
    else Admits
  }

  /** The fields of a plugin's configuration after JSON decoding: absent is not zero. */
  datatype RawConfig = RawConfig(
    contextTokens: Option<int>,
    outputReserveTokens: Option<int>,
    providerFramingTokens: Option<int>,
    byteFallbackTokenizer: Option<bool>)

  function ParseAdmissionConfig(raw: RawConfig): Option<AdmissionConfig> {
    if raw.contextTokens.None? || raw.outputReserveTokens.None? || raw.providerFramingTokens.None?
       || raw.byteFallbackTokenizer.None?
    then None
    else
      var cfg := AdmissionConfig(raw.contextTokens.value, raw.outputReserveTokens.value,
                                 raw.providerFramingTokens.value, raw.byteFallbackTokenizer.value);
      if cfg.contextTokens <= 0 || cfg.outputReserveTokens < 0 || cfg.providerFramingTokens < 0
         || !cfg.byteFallbackTokenizer
      then None
      else if cfg.contextTokens - cfg.outputReserveTokens - cfg.providerFramingTokens <= 0 then None
      else Some(cfg)
  }

  /** What was parsed is never found invalid later, and nothing that would be valid is refused. */
  lemma ParsedIffUsable(raw: RawConfig, prompts: seq<string>)
    ensures ParseAdmissionConfig(raw).Some? ==> Admit(prompts, ParseAdmissionConfig(raw).value) != InvalidConfig
    ensures ParseAdmissionConfig(raw).None? ==>
              forall cfg: AdmissionConfig ::
                raw == RawConfig(Some(cfg.contextTokens), Some(cfg.outputReserveTokens),
                                 Some(cfg.providerFramingTokens), Some(cfg.byteFallbackTokenizer))
                ==> Admit(prompts, cfg) == InvalidConfig
  {
  }

  function Largest(prompts: seq<string>): (n: nat)
    ensures forall p :: p in prompts ==> |p| <= n
    ensures prompts != [] ==> exists p :: p in prompts && |p| == n
  {
    if prompts == [] then 0
    else
      var last, before := prompts[|prompts| - 1], Largest(prompts[..|prompts| - 1]);
      if |prompts| == 1 || |last| >= before then |last| else before
  }

  /**
   * With a usable configuration the largest prompt decides: exactly at the ceiling all
   * prompts pass, and one byte over it in any of them exceeds the budget.
   */
  lemma CeilingIsExact(raw: RawConfig, prompts: seq<string>)
    requires ParseAdmissionConfig(raw).Some?
    ensures raw.contextTokens.Some? && raw.outputReserveTokens.Some? && raw.providerFramingTokens.Some?
    ensures var cfg := ParseAdmissionConfig(raw).value;
            var ceiling := raw.contextTokens.value - raw.outputReserveTokens.value - raw.providerFramingTokens.value;
            && ceiling > 0
            && (Admit(prompts, cfg) == Admits <==> Largest(prompts) <= ceiling)
            && (Admit(prompts, cfg) == OverBudget <==> Largest(prompts) > ceiling)
  {
  }

  // ----- the digest

  const BAR := '|'

  /** The text that is hashed into the digest. */
  function DigestText(version: string, pluginId: string, cfg: AdmissionConfig): string {
    version + [BAR] + pluginId + [BAR] + Signed(cfg.contextTokens) + [BAR] + Signed(cfg.outputReserveTokens) + [BAR]
    + Signed(cfg.providerFramingTokens) + [BAR] + Flag(cfg.byteFallbackTokenizer)
  }

  function Flag(b: bool): string {
    if b then "true" else "false"
  }

  lemma DropPrefix(p: string, a: string, b: string)
    requires p + a == p + b
    ensures a == b
  {
    assert (p + a)[|p|..] == a && (p + b)[|p|..] == b;
  }

  /** Two digests hash the same text only for the same plugin and the same four fields. */
  lemma DigestTextInjective(version: string, id: string, cfg: AdmissionConfig, id': string, cfg': AdmissionConfig)
    requires DigestText(version, id, cfg) == DigestText(version, id', cfg')
    ensures id == id' && cfg == cfg'
  {
    var a1 := version + [BAR] + id;
    var a2 := a1 + [BAR] + Signed(cfg.contextTokens);
    var a3 := a2 + [BAR] + Signed(cfg.outputReserveTokens);
    var a4 := a3 + [BAR] + Signed(cfg.providerFramingTokens);
    var b1 := version + [BAR] + id';
    var b2 := b1 + [BAR] + Signed(cfg'.contextTokens);
    var b3 := b2 + [BAR] + Signed(cfg'.outputReserveTokens);
    var b4 := b3 + [BAR] + Signed(cfg'.providerFramingTokens);
    SignedWithout(cfg.contextTokens, BAR);
    SignedWithout(cfg'.contextTokens, BAR);
    SignedWithout(cfg.outputReserveTokens, BAR);
    SignedWithout(cfg'.outputReserveTokens, BAR);
    SignedWithout(cfg.providerFramingTokens, BAR);
    SignedWithout(cfg'.providerFramingTokens, BAR);
    LastSeparator(a4, Flag(cfg.byteFallbackTokenizer), b4, Flag(cfg'.byteFallbackTokenizer), BAR);
    LastSeparator(a3, Signed(cfg.providerFramingTokens), b3, Signed(cfg'.providerFramingTokens), BAR);
    LastSeparator(a2, Signed(cfg.outputReserveTokens), b2, Signed(cfg'.outputReserveTokens), BAR);
    LastSeparator(a1, Signed(cfg.contextTokens), b1, Signed(cfg'.contextTokens), BAR);
    SignedInjective(cfg.contextTokens, cfg'.contextTokens);
    SignedInjective(cfg.outputReserveTokens, cfg'.outputReserveTokens);
    SignedInjective(cfg.providerFramingTokens, cfg'.providerFramingTokens);
    assert Flag(true)[0] == 't' && Flag(false)[0] == 'f';
    DropPrefix(version + [BAR], id, id');
  }

  // ----- check, then act

  const PROMPT_VERSION := "cross-v1"

  datatype Plugin = Plugin(id: string, config: RawConfig)

  /** A hash that no two texts share. */
  ghost predicate CollisionFree(hash: string -> string) {
    forall a, b :: hash(a) == hash(b) ==> a == b
  }

  function Digest(hash: string -> string, pluginId: string, cfg: AdmissionConfig): string {
    hash(DigestText(PROMPT_VERSION, pluginId, cfg))
  }

  /** What preflight hands to the invocation. */
  datatype Preflight = Preflight(prompts: seq<string>, pluginId: string, digest: string)

  datatype Outcome<T> =
    | Ok(value: T)
    | NoDefaultAgent
    | BadConfig
    | Refused(why: Admitted)
    | GenerationMismatch
    | PluginChanged

  /** The last part of preflight: the default plugin is read, its budget parsed and applied. */
  function PreflightAdmission(hash: string -> string, prompts: seq<string>, plugin: Option<Plugin>)
    : Outcome<Preflight>
  {
    match plugin
    case None => NoDefaultAgent
    case Some(p) =>
      match ParseAdmissionConfig(p.config)
      case None => BadConfig
      case Some(cfg) =>
        var verdict := Admit(prompts, cfg);
        if verdict == Admits then Ok(Preflight(prompts, p.id, Digest(hash, p.id, cfg))) else Refused(verdict)
  }

  /** The invocation up to the call of the generator, with the plugin and transcripts as they are by then. */
  function Invoke(hash: string -> string, pre: Preflight, generationsMatch: bool, plugin: Option<Plugin>)
    : Outcome<Plugin>
  {
    if !generationsMatch then GenerationMismatch
    else
      match plugin
      case None => NoDefaultAgent
      case Some(p) =>
        match ParseAdmissionConfig(p.config)
        case None => BadConfig
        case Some(cfg) =>
          if p.id != pre.pluginId || Digest(hash, p.id, cfg) != pre.digest then PluginChanged else Ok(p)
  }

  /** Preflight succeeds exactly with a default plugin whose budget is usable and not exceeded, and names it. */
  lemma PreflightIff(hash: string -> string, prompts: seq<string>, plugin: Option<Plugin>)
    ensures PreflightAdmission(hash, prompts, plugin).Ok? <==>
            && plugin.Some? && ParseAdmissionConfig(plugin.value.config).Some?
            && Admit(prompts, ParseAdmissionConfig(plugin.value.config).value) == Admits
    ensures PreflightAdmission(hash, prompts, plugin).Ok? ==>
              var pre := PreflightAdmission(hash, prompts, plugin).value;
              pre.prompts == prompts && pre.pluginId == plugin.value.id
    ensures PreflightAdmission(hash, prompts, plugin) == Refused(OverBudget) <==>
            && plugin.Some? && ParseAdmissionConfig(plugin.value.config).Some?
            && Admit(prompts, ParseAdmissionConfig(plugin.value.config).value) == OverBudget
  {
  }

  /**
   * However the plugin was changed between the two reads, the generator is called
   * exactly when nothing that matters has changed; and then the prompts would be
   * admitted under the configuration read at the call.
   */
  lemma GeneratorOnlyWhenAdmitted(hash: string -> string, prompts: seq<string>, atPreflight: Option<Plugin>,
                                  generationsMatch: bool, atInvoke: Option<Plugin>)
    requires CollisionFree(hash)
    requires PreflightAdmission(hash, prompts, atPreflight).Ok?
    ensures var pre := PreflightAdmission(hash, prompts, atPreflight).value;
            var called := Invoke(hash, pre, generationsMatch, atInvoke).Ok?;
            && (called <==>
                  && generationsMatch && atInvoke.Some? && atInvoke.value.id == atPreflight.value.id
                  && ParseAdmissionConfig(atInvoke.value.config) == ParseAdmissionConfig(atPreflight.value.config))
            && (called ==> Admit(prompts, ParseAdmissionConfig(atInvoke.value.config).value) == Admits)
  {
    if generationsMatch && atInvoke.Some? && ParseAdmissionConfig(atInvoke.value.config).Some? {
      var before := ParseAdmissionConfig(atPreflight.value.config).value;
      var after := ParseAdmissionConfig(atInvoke.value.config).value;
      if Digest(hash, atInvoke.value.id, after) == Digest(hash, atPreflight.value.id, before) {
        DigestTextInjective(PROMPT_VERSION, atInvoke.value.id, after, atPreflight.value.id, before);
      }
    }
  }
}
