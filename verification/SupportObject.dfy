/** The support object and the comparison as they are printed: what the widths of
    `Support` are the widths of. */

module SupportObject {
  import opened Planner
  import opened Support
  import AnswerKeys

  /** JSON of a level and of a reference. */
  function LevelText(level: Level): string {
    match level
    case Off => "\"off\"" case Minimal => "\"minimal\"" case Low => "\"low\"" case Medium => "\"medium\""
    case High => "\"high\"" case XHigh => "\"xhigh\"" case Max => "\"max\""
  }

  function ReferenceText(reference: Reference): string {
    match reference
    case Reasoning => "\"reasoning\"" case Image => "\"image\"" case ContextWindow => "\"context_window\""
    case MaxOutputTokens => "\"max_output_tokens\"" case Thinking => "\"thinking\"" case CacheShort => "\"cache_short\""
    case CacheLong => "\"cache_long\"" case DeclaredCost => "\"declared_cost\""
  }

  function LevelsText(levels: seq<Level>): string {
    if levels == [] then ""
    else LevelText(levels[0]) + (if |levels| > 1 then "," else "") + LevelsText(levels[1..])
  }

  /** The JSON of names, and of the digest of a catalog entry. */
  datatype Printing = Printing(name: string -> string, facts: Identity -> string)
  {
    /** A digest is 64 hexadecimal digits in quotes. */
    ghost predicate Prints(text: string -> nat) {
      && (forall s :: text(s) == |name(s)|)
      && (forall i :: 66 == |facts(i)|)
    }
  }

  function CandidateText(json: Printing, c: Candidate): string {
    "{\"provider\":" + json.name(c.identity.provider) + ",\"model\":" + json.name(c.identity.model)
    + ",\"thinking_levels\":[" + LevelsText(c.levels) + "],\"facts\":" + json.facts(c.identity) + "}"
  }

  function AlternativesText(json: Printing, candidates: seq<Candidate>, provider: string, first: bool): string {
    if candidates == [] then ""
    else if candidates[0].identity.provider == provider then AlternativesText(json, candidates[1..], provider, first)
    else (if first then "" else ",") + CandidateText(json, candidates[0]) + AlternativesText(json, candidates[1..], provider, false)
  }

  function SelectedText(json: Printing, t: Tuple): string {
    "{\"provider\":" + json.name(t.identity.provider) + ",\"model\":" + json.name(t.identity.model)
    + ",\"thinking\":" + LevelText(t.level) + ",\"facts\":" + json.facts(t.identity) + "}"
  }

  function SliceText(json: Printing, role: RoleFacts, t: Tuple): string {
    "{\"role\":" + json.name(role.role) + ",\"selected\":" + SelectedText(json, t)
    + ",\"alternatives\":[" + AlternativesText(json, role.candidates, t.identity.provider, true) + "]}"
  }

  function SlicesText(json: Printing, selected: seq<RoleFacts>, tuples: seq<Tuple>): string
    requires |tuples| == |selected|
  {
    if selected == [] then ""
    else SlicesText(json, selected[..|selected| - 1], tuples[..|tuples| - 1])
         + (if |selected| > 1 then "," else "") + SliceText(json, selected[|selected| - 1], tuples[|tuples| - 1])
  }

  const LOCKED_SINGLE_TEXT :=
    "{\"source\":\"derived\",\"state\":\"locked_fixed\",\"feasible\":[\"single_provider\"],\"reference\":\"none\",\"roles\":[]}"
  const LOCKED_MIXED_TEXT :=
    "{\"source\":\"derived\",\"state\":\"locked_fixed\",\"feasible\":[\"mixed_provider\"],\"reference\":\"none\",\"roles\":[]}"
  const MIXED_TEXT :=
    "{\"source\":\"derived\",\"state\":\"mixed\",\"feasible\":[\"single_provider\",\"mixed_provider\"],\"reference\":\"none\",\"roles\":[]}"
  const SUPPORTED_TEXT :=
    "{\"source\":\"derived\",\"state\":\"supported\",\"feasible\":[\"single_provider\",\"mixed_provider\"],\"reference\":"

  function SupportText(json: Printing, derived: Derived, selected: seq<RoleFacts>, tuples: seq<Tuple>): string
    requires |tuples| == |selected|
  {
    match derived
    case LockedSingle => LOCKED_SINGLE_TEXT
    case LockedMixed => LOCKED_MIXED_TEXT
    case Mixed => MIXED_TEXT
    case Supported(reference) => SUPPORTED_TEXT + ReferenceText(reference) + ",\"roles\":[" + SlicesText(json, selected, tuples) + "]}"
  }

  function ComparisonText(comparison: Comparison): string {
    match comparison
    case Homogeneous => "{\"state\":\"homogeneous\",\"rationale\":\"rationale_unavailable\"}"
    case Heterogeneous => "{\"state\":\"mixed\",\"rationale\":\"rationale_unavailable\"}"
  }

  /** The names of levels are the ones that answers use. */
  lemma LevelsNamed(level: Level)
    ensures LevelText(level) == "\"" + AnswerKeys.LevelName(level) + "\""
  {
  }

  lemma {:induction false} LevelsMeasured(levels: seq<Level>)
    ensures |LevelsText(levels)| == LevelsWidth(levels)
  {
    if levels != [] { LevelsMeasured(levels[1..]); }
  }

  lemma CandidateMeasured(text: string -> nat, json: Printing, c: Candidate)
    requires json.Prints(text)
    ensures |CandidateText(json, c)| == 12 + text(c.identity.provider) + 9 + text(c.identity.model) + 20 + LevelsWidth(c.levels) + 10 + DIGEST + 1
  {
    LevelsMeasured(c.levels);
  }

  lemma {:induction false} AlternativesMeasured(text: string -> nat, json: Printing, candidates: seq<Candidate>, provider: string, first: bool)
    requires json.Prints(text)
    ensures |AlternativesText(json, candidates, provider, first)| == AlternativesWidth(text, candidates, provider, first)
  {
    if candidates != [] {
      if candidates[0].identity.provider == provider {
        AlternativesMeasured(text, json, candidates[1..], provider, first);
      } else {
        AlternativesMeasured(text, json, candidates[1..], provider, false);
        CandidateMeasured(text, json, candidates[0]);
      }
    }
  }

  lemma SelectedMeasured(text: string -> nat, json: Printing, t: Tuple)
    requires json.Prints(text)
    ensures |SelectedText(json, t)| == 12 + text(t.identity.provider) + 9 + text(t.identity.model) + 12 + LevelWidth(t.level) + 9 + DIGEST + 1
  {
  }

  lemma SliceMeasured(text: string -> nat, json: Printing, role: RoleFacts, t: Tuple)
    requires json.Prints(text)
    ensures |SliceText(json, role, t)| == SliceWidth(text, role, t)
  {
    SelectedMeasured(text, json, t);
    AlternativesMeasured(text, json, role.candidates, t.identity.provider, true);
  }

  lemma {:induction false} SlicesMeasured(text: string -> nat, json: Printing, selected: seq<RoleFacts>, tuples: seq<Tuple>)
    requires json.Prints(text) && |tuples| == |selected|
    ensures |SlicesText(json, selected, tuples)| == SlicesWidth(text, selected, tuples)
    decreases |selected|
  {
    if selected != [] {
      SlicesMeasured(text, json, selected[..|selected| - 1], tuples[..|tuples| - 1]);
      SliceMeasured(text, json, selected[|selected| - 1], tuples[|tuples| - 1]);
    }
  }

  lemma LockedSingleMeasured()
    ensures |LOCKED_SINGLE_TEXT| == LOCKED_SINGLE_BYTES
  {
  }

  lemma LockedMixedMeasured()
    ensures |LOCKED_MIXED_TEXT| == LOCKED_MIXED_BYTES
  {
  }

  lemma MixedMeasured()
    ensures |MIXED_TEXT| == MIXED_BYTES
  {
  }

  lemma PrefixMeasured()
    ensures |SUPPORTED_TEXT| == 100
  {
  }

  lemma ReferenceMeasured(reference: Reference)
    ensures |ReferenceText(reference)| == ReferenceWidth(reference)
  {
  }

  /** The measured size of a support object is the length of its JSON text. */
  lemma SupportMeasured(text: string -> nat, json: Printing, derived: Derived, selected: seq<RoleFacts>, tuples: seq<Tuple>)
    requires json.Prints(text) && |tuples| == |selected|
    ensures |SupportText(json, derived, selected, tuples)| == SupportBytes(text, derived, selected, tuples)
  {
    match derived
    case LockedSingle => LockedSingleMeasured();
    case LockedMixed => LockedMixedMeasured();
    case Mixed => MixedMeasured();
    case Supported(reference) =>
      PrefixMeasured();
      ReferenceMeasured(reference);
      SlicesMeasured(text, json, selected, tuples);
  }

  lemma ComparisonMeasured(comparison: Comparison)
    ensures |ComparisonText(comparison)| == ComparisonBytes(comparison)
  {
  }
}
