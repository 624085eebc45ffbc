/**
 * Application settings: the declared fields with their defaults, the two
 * derived properties, and attribute lookup by name as `hasattr`/`getattr`
 * see it.
 */
module Config {
  import opened Wrappers
  import opened Text
  import opened Json

  datatype AppSettings = AppSettings(
    bearerToken: string,
    apiKey: Option<string>,
    openaiApiKey: Option<string>,
    openaiPromptIdGate1: string,
    openaiPromptIdGate2: string,
    openaiPromptIdGate2b: string,
    openaiPromptIdGate3: string,
    openaiPromptIdGate4: string,
    openaiPromptIdGate5: string,
    openaiPromptIdGate6: string,
    openaiPromptIdGate7: string,
    openaiPromptIdGate8: string,
    openaiPromptIdGate9: string,
    openaiPromptIdGate10: string,
    openaiPromptIdGate11: string,
    openaiPromptIdGate12: string,
    openaiPromptIdGate13: string,
    openaiPromptIdGate14: string,
    openaiPromptIdGate15: string,
    openaiPromptIdGate16: string,
    openaiPromptVersion: string,
    corsOrigins: string,
    databaseUrl: string,
    productOptions: string,
    dimensionContext: string)

  const DefaultCorsOrigins := "http://localhost:3000,http://localhost:3001"

  /** The settings when no environment variable overrides a default. */
  function DefaultSettings(): AppSettings {
    AppSettings(
      "changeme",
      None,
      None,
      "pmpt_6977d1cf2b208195b83507388f431b30072ae8d30040d02c",
      "pmpt_698f24734b2c8190b35dbd645766daba0a00ac37516c9940",
      "pmpt_698f2e84a3a4819692fe9ba63dacfe53057c8a385232b3fd",
      "pmpt_698f31a4830881958384594286c8c62f06c5a37e85bd4e6b",
      "pmpt_6977f448f57881939b6410f0541e5303004454c08c8bc19e",
      "pmpt_6977f7ad484c819795d265ad1bf07b930402ff510a9eb765",
      "pmpt_697803e1e5e0819587867faccf71fa6409cf1cc966d5e321",
      "pmpt_697805fb59588196a446eb48e392548109820f5362547ca4",
      "pmpt_6978071466bc8190a15ee761a83398410b726c8acef309cc",
      "pmpt_697807cb96fc8194b82b82fce26f21bf09a1fc92e4563c30",
      "pmpt_6978092468cc81958ff5aae5ad2b5b9c0b95329c9d220ede",
      "pmpt_697809f6c66081958a4aacfe7e704d3f02d00efa02c8f61b",
      "pmpt_69780a90ce6881969d905471a1ad83a505416370ca27f5bb",
      "pmpt_69780bc3d80c819396ff8278323c3193080e758869de286b",
      "pmpt_6978110a94ec8194b17002c5ade3afd70bacd06984cffa57",
      "pmpt_697811b7f65881958e5a4f89b62b705f04088f60550ae728",
      "pmpt_6978126bfc1081909f6b9f79fb54a2c802d66271fdf751e6",
      "5",
      DefaultCorsOrigins,
      "data/quoteapp.db",
      "A) R-Blade\nB) R-Breeze\nC) K-Bana\nD) X-Blast\nE) Sky-Tilt\nF) Kitchens",
      "{\"PRODUCT_ID\":\"r_blade\",\"DIMENSION_RULES\":{\"r_blade\":{\"rounding_method\":\"ceil\","
        + "\"rounding_increment_ft\":1,\"max_width_single_bay_ft\":16,\"max_length_single_bay_ft\":23}}}")
  }

  /** An optional key counts as set when it is present and not empty. */
  predicate IsSet(key: Option<string>) {
    key.Some? && key.value != ""
  }

  /** `resolved_api_key`: `api_key or openai_api_key or ""`. */
  function ResolvedApiKey(s: AppSettings): (r: string)
    ensures IsSet(s.apiKey) ==> r == s.apiKey.value
    ensures !IsSet(s.apiKey) && IsSet(s.openaiApiKey) ==> r == s.openaiApiKey.value
    ensures r == "" <==> !IsSet(s.apiKey) && !IsSet(s.openaiApiKey)
  {
    if IsSet(s.apiKey) then s.apiKey.value
    else if IsSet(s.openaiApiKey) then s.openaiApiKey.value
    else ""
  }

  /** A piece the origin list keeps: non-empty, with no surrounding whitespace. */
  predicate IsCleanPiece(o: string) {
    o != "" && IsStripped(o)
  }

  /** The non-empty strings of `xs`, in their original order (`if o` in a comprehension). */
  function DropEmpty(xs: seq<string>): (r: seq<string>)
    ensures |r| <= |xs|
    ensures forall i :: 0 <= i < |r| ==> r[i] != "" && r[i] in xs
  {
    if xs == [] then []
    else if xs[0] == "" then DropEmpty(xs[1..])
    else [xs[0]] + DropEmpty(xs[1..])
  }

  /** Dropping works piece by piece: what is kept from `a` comes first, in order. */
  lemma {:induction false} DropEmptyAppend(a: seq<string>, b: seq<string>)
    ensures DropEmpty(a + b) == DropEmpty(a) + DropEmpty(b)
  {
    if a == [] {
      assert a + b == b;
    } else {
      assert (a + b)[0] == a[0];
      assert (a + b)[1..] == a[1..] + b;
      DropEmptyAppend(a[1..], b);
    }
  }

  lemma {:induction false} DropEmptyAllKept(xs: seq<string>)
    requires forall i :: 0 <= i < |xs| ==> xs[i] != ""
    ensures DropEmpty(xs) == xs
  {
    if xs != [] {
      DropEmptyAllKept(xs[1..]);
      assert [xs[0]] + xs[1..] == xs;
    }
  }

  lemma {:induction false} DropEmptyAllBlank(xs: seq<string>)
    requires forall i :: 0 <= i < |xs| ==> xs[i] == ""
    ensures DropEmpty(xs) == []
  {
    if xs != [] {
      DropEmptyAllBlank(xs[1..]);
    }
  }

  /** `[o.strip() for o in pieces]` */
  function StripAll(pieces: seq<string>): (r: seq<string>)
    ensures |r| == |pieces|
    ensures forall i :: 0 <= i < |r| ==> r[i] == Strip(pieces[i]) && IsStripped(r[i])
  {
    var r := seq(|pieces|, i requires 0 <= i < |pieces| => Strip(pieces[i]));
    forall i | 0 <= i < |r|
      ensures IsStripped(r[i])
    {
      StripProperties(pieces[i]);
    }
    r
  }

  /** The stripped, non-empty pieces, in their original order: `[o.strip() for o in pieces if o.strip()]`. */
  function NonEmptyStripped(pieces: seq<string>): (r: seq<string>)
    ensures |r| <= |pieces|
    ensures forall i :: 0 <= i < |r| ==> IsCleanPiece(r[i])
  {
    DropEmpty(StripAll(pieces))
  }

  /** When no piece is blank, every piece is kept, stripped, in order. */
  lemma NonEmptyStrippedAllKept(pieces: seq<string>)
    requires forall i :: 0 <= i < |pieces| ==> Strip(pieces[i]) != ""
    ensures NonEmptyStripped(pieces) == seq(|pieces|, i requires 0 <= i < |pieces| => Strip(pieces[i]))
  {
    DropEmptyAllKept(StripAll(pieces));
  }

  /** Pieces that are empty or only whitespace are all dropped. */
  lemma NonEmptyStrippedAllBlank(pieces: seq<string>)
    requires forall i :: 0 <= i < |pieces| ==> Strip(pieces[i]) == ""
    ensures NonEmptyStripped(pieces) == []
  {
    DropEmptyAllBlank(StripAll(pieces));
  }

  /** `cors_origin_list`: `[o.strip() for o in cors_origins.split(",") if o.strip()]` */
  function CorsOriginList(s: AppSettings): (r: seq<string>)
    ensures |r| <= |Split(s.corsOrigins, ',')|
    ensures forall i :: 0 <= i < |r| ==> IsCleanPiece(r[i])
  {
    NonEmptyStripped(Split(s.corsOrigins, ','))
  }

  /** A piece that can be written in an origin list and read back unchanged. */
  predicate IsOrigin(o: string) {
    IsCleanPiece(o) && ',' !in o
  }

  /** Pieces that are already clean are kept exactly as they are. */
  lemma NonEmptyStrippedKeeps(xs: seq<string>)
    requires forall i :: 0 <= i < |xs| ==> IsCleanPiece(xs[i])
    ensures NonEmptyStripped(xs) == xs
  {
    forall i | 0 <= i < |xs|
      ensures StripAll(xs)[i] == xs[i]
    {
      StripOfStripped(xs[i]);
    }
    assert StripAll(xs) == xs;
    DropEmptyAllKept(xs);
  }

  /** Padded, non-blank origins written comma-separated are read back stripped, in order. */
  lemma CorsOriginListStripsPieces(s: AppSettings, xs: seq<string>)
    requires |xs| >= 1 && s.corsOrigins == Join(xs, [','])
    requires forall i :: 0 <= i < |xs| ==> ',' !in xs[i] && Strip(xs[i]) != ""
    ensures CorsOriginList(s) == seq(|xs|, i requires 0 <= i < |xs| => Strip(xs[i]))
  {
    SplitJoin(xs, ',');
    NonEmptyStrippedAllKept(xs);
  }

  /** Origins written comma-separated are read back unchanged and in the same order. */
  lemma OriginListRoundTrip(s: AppSettings, xs: seq<string>)
    requires |xs| >= 1 && s.corsOrigins == Join(xs, [','])
    requires forall i :: 0 <= i < |xs| ==> IsOrigin(xs[i])
    ensures CorsOriginList(s) == xs
  {
    SplitJoin(xs, ',');
    NonEmptyStrippedKeeps(xs);
  }

  /**
   * Whatever else is overridden, settings that keep the shipped `cors_origins`
   * default allow exactly the two local development origins.
   */
  lemma DefaultCorsOriginList(s: AppSettings)
    requires s.corsOrigins == DefaultCorsOrigins
    ensures CorsOriginList(s) == ["http://localhost:3000", "http://localhost:3001"]
  {
    DefaultOriginsSplit();
    OriginListRoundTrip(s, ["http://localhost:3000", "http://localhost:3001"]);
  }

  /** The shipped default is the two local origins joined with a comma. */
  lemma DefaultOriginsSplit()
    ensures var xs := ["http://localhost:3000", "http://localhost:3001"];
      (forall i :: 0 <= i < |xs| ==> IsOrigin(xs[i])) && Join(xs, [',']) == DefaultCorsOrigins
  {
    var a, b := "http://localhost:3000", "http://localhost:3001";
    assert IsOrigin(a) by { assert forall i :: 0 <= i < |a| ==> a[i] != ','; }
    assert IsOrigin(b) by { assert forall i :: 0 <= i < |b| ==> b[i] != ','; }
    assert Join([a, b], [',']) == a + [','] + b == DefaultCorsOrigins;
  }

  function OptionalText(o: Option<string>): Value {
    if o.Some? then Str(o.value) else Null
  }

  /** The names `hasattr(settings, name)` answers true for: the declared fields, the two properties and `model_config`. */
  const AttributeNames: set<string> := {
    "bearer_token", "api_key", "openai_api_key",
    "openai_prompt_id_gate1", "openai_prompt_id_gate2", "openai_prompt_id_gate2b",
    "openai_prompt_id_gate3", "openai_prompt_id_gate4", "openai_prompt_id_gate5",
    "openai_prompt_id_gate6", "openai_prompt_id_gate7", "openai_prompt_id_gate8",
    "openai_prompt_id_gate9", "openai_prompt_id_gate10", "openai_prompt_id_gate11",
    "openai_prompt_id_gate12", "openai_prompt_id_gate13", "openai_prompt_id_gate14",
    "openai_prompt_id_gate15", "openai_prompt_id_gate16", "openai_prompt_version",
    "cors_origins", "database_url", "product_options", "dimension_context",
    "resolved_api_key", "cors_origin_list", "model_config"}

  /**
   * `getattr(settings, name)`: the value of a declared field, of one of the two
   * properties or of `model_config`; None where `hasattr(settings, name)` is false.
   */
  function Attribute(s: AppSettings, name: string): (r: Option<Value>)
    ensures r.Some? <==> name in AttributeNames
  {
    match name
    case "bearer_token" => Some(Str(s.bearerToken))
    case "api_key" => Some(OptionalText(s.apiKey))
    case "openai_api_key" => Some(OptionalText(s.openaiApiKey))
    case "openai_prompt_id_gate1" => Some(Str(s.openaiPromptIdGate1))
    case "openai_prompt_id_gate2" => Some(Str(s.openaiPromptIdGate2))
    case "openai_prompt_id_gate2b" => Some(Str(s.openaiPromptIdGate2b))
    case "openai_prompt_id_gate3" => Some(Str(s.openaiPromptIdGate3))
    case "openai_prompt_id_gate4" => Some(Str(s.openaiPromptIdGate4))
    case "openai_prompt_id_gate5" => Some(Str(s.openaiPromptIdGate5))
    case "openai_prompt_id_gate6" => Some(Str(s.openaiPromptIdGate6))
    case "openai_prompt_id_gate7" => Some(Str(s.openaiPromptIdGate7))
    case "openai_prompt_id_gate8" => Some(Str(s.openaiPromptIdGate8))
    case "openai_prompt_id_gate9" => Some(Str(s.openaiPromptIdGate9))
    case "openai_prompt_id_gate10" => Some(Str(s.openaiPromptIdGate10))
    case "openai_prompt_id_gate11" => Some(Str(s.openaiPromptIdGate11))
    case "openai_prompt_id_gate12" => Some(Str(s.openaiPromptIdGate12))
    case "openai_prompt_id_gate13" => Some(Str(s.openaiPromptIdGate13))
    case "openai_prompt_id_gate14" => Some(Str(s.openaiPromptIdGate14))
    case "openai_prompt_id_gate15" => Some(Str(s.openaiPromptIdGate15))
    case "openai_prompt_id_gate16" => Some(Str(s.openaiPromptIdGate16))
    case "openai_prompt_version" => Some(Str(s.openaiPromptVersion))
    case "cors_origins" => Some(Str(s.corsOrigins))
    case "database_url" => Some(Str(s.databaseUrl))
    case "product_options" => Some(Str(s.productOptions))
    case "dimension_context" => Some(Str(s.dimensionContext))
    case "resolved_api_key" => Some(Str(ResolvedApiKey(s)))
    case "cors_origin_list" => Some(Arr(seq(|CorsOriginList(s)|, i requires 0 <= i < |CorsOriginList(s)| => Str(CorsOriginList(s)[i]))))
    case "model_config" => Some(Obj(map["env_file" := Str(".env"), "extra" := Str("ignore")]))
    case _ => None
  }

  /**
   * `hasattr` sees the declared fields and the two properties; the names
   * `openai_prompt_id_step1`/`step2` are only environment aliases of the
   * gate-1 and gate-2 fields, so no attribute carries them.
   */
  lemma SettingsAttributes(s: AppSettings)
    ensures Attribute(s, "product_options") == Some(Str(s.productOptions))
    ensures Attribute(s, "openai_prompt_id_gate1") == Some(Str(s.openaiPromptIdGate1))
    ensures Attribute(s, "openai_prompt_id_gate2") == Some(Str(s.openaiPromptIdGate2))
    ensures Attribute(s, "resolved_api_key") == Some(Str(ResolvedApiKey(s)))
    ensures Attribute(s, "openai_prompt_id_step1") == None
    ensures Attribute(s, "openai_prompt_id_step2") == None
  {
  }
}
