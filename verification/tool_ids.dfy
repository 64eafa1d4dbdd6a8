/**
 Tool identifiers as the planner reads them: every spelling is normalised to one canonical id.
 Letters are ASCII; white space is outside the alphabet, so trimming it first would change nothing.
 */
module ToolIds {
  import opened Common

  function Lower(c: char): char {
    if 'A' <= c <= 'Z' then (c as int - 'A' as int + 'a' as int) as char else c
  }

  predicate InAlphabet(c: char) {
    'a' <= c <= 'z' || '0' <= c <= '9' || c == '_' || c == '.' || c == '-'
  }

  /** Lower case, with each maximal run of foreign characters replaced by one dash. */
  function Squeeze(s: string, inRun: bool): string {
    if s == "" then ""
    else if InAlphabet(Lower(s[0])) then [Lower(s[0])] + Squeeze(s[1..], false)
    else (if inRun then "" else "-") + Squeeze(s[1..], true)
  }

  function StripLeft(s: string): string {
    if s != "" && s[0] == '-' then StripLeft(s[1..]) else s
  }

  function StripRight(s: string): string {
    if s != "" && s[|s| - 1] == '-' then StripRight(s[..|s| - 1]) else s
  }

  function Clean(s: string): string { StripRight(StripLeft(Squeeze(s, false))) }

  function Alias(s: string): string {
    if s == "tree_sitter" || s == "treesitter" then "tree-sitter"
    else if s == "open_telemetry" || s == "otel" then "opentelemetry"
    else if s == "native_code_index" || s == "native_code_index_contract" then "native-code-index"
    else if s == "local_telemetry" || s == "local_telemetry_contract" then "local-telemetry"
    else s
  }

  function Normalize(s: Id): Id { Alias(Clean(s)) }

  /** Text that cleaning leaves alone. */
  predicate IsClean(s: string) {
    && (forall i :: 0 <= i < |s| ==> InAlphabet(s[i]))
    && (s != "" ==> s[0] != '-' && s[|s| - 1] != '-')
  }

  lemma {:induction false} SqueezeStaysInAlphabet(s: string, inRun: bool)
    ensures forall i :: 0 <= i < |Squeeze(s, inRun)| ==> InAlphabet(Squeeze(s, inRun)[i])
  {
    if s != "" {
      SqueezeStaysInAlphabet(s[1..], false);
      SqueezeStaysInAlphabet(s[1..], true);
    }
  }

  lemma {:induction false} StripLeftIsSuffix(s: string)
    ensures exists k :: 0 <= k <= |s| && StripLeft(s) == s[k..]
    ensures StripLeft(s) != "" ==> StripLeft(s)[0] != '-'
  {
    if s != "" && s[0] == '-' {
      StripLeftIsSuffix(s[1..]);
      var k :| 0 <= k <= |s[1..]| && StripLeft(s[1..]) == s[1..][k..];
      assert s[1..][k..] == s[k + 1..];
    } else {
      assert s == s[0..];
    }
  }

  lemma {:induction false} StripRightIsPrefix(s: string)
    ensures exists k :: 0 <= k <= |s| && StripRight(s) == s[..k]
    ensures StripRight(s) != "" ==> StripRight(s)[|StripRight(s)| - 1] != '-'
  {
    if s != "" && s[|s| - 1] == '-' {
      StripRightIsPrefix(s[..|s| - 1]);
      var k :| 0 <= k <= |s| - 1 && StripRight(s[..|s| - 1]) == s[..|s| - 1][..k];
      assert s[..|s| - 1][..k] == s[..k];
    } else {
      assert s == s[..|s|];
    }
  }

  lemma CleanIsClean(s: string)
    ensures IsClean(Clean(s))
  {
    hide InAlphabet;
    var squeezed := Squeeze(s, false);
    SqueezeStaysInAlphabet(s, false);
    StripLeftIsSuffix(squeezed);
    StripRightIsPrefix(StripLeft(squeezed));
  }

  lemma {:induction false} SqueezeKeepsAlphabet(s: string)
    requires forall i :: 0 <= i < |s| ==> InAlphabet(s[i])
    ensures Squeeze(s, false) == s
  {
    if s != "" {
      assert Lower(s[0]) == s[0];
      SqueezeKeepsAlphabet(s[1..]);
      assert s == [s[0]] + s[1..];
    }
  }

  lemma CleanKeepsClean(s: string)
    requires IsClean(s)
    ensures Clean(s) == s
  {
    SqueezeKeepsAlphabet(s);
  }

  lemma AliasIdempotent(s: string)
    ensures Alias(Alias(s)) == Alias(s)
  {
  }

  lemma TreeSitterIsClean()
    ensures IsClean("tree-sitter")
  {
  }

  lemma OpenTelemetryIsClean()
    ensures IsClean("opentelemetry")
  {
  }

  lemma CodeIndexIsClean()
    ensures IsClean("native-code-index")
  {
  }

  lemma LocalTelemetryIsClean()
    ensures IsClean("local-telemetry")
  {
  }

  lemma AliasTargets(s: string)
    ensures var a := Alias(s);
            a == s || a == "tree-sitter" || a == "opentelemetry" || a == "native-code-index" || a == "local-telemetry"
  {
  }

  lemma AliasesAreClean(s: string)
    requires IsClean(s)
    ensures IsClean(Alias(s))
  {
    hide *;
    AliasTargets(s);
    TreeSitterIsClean();
    OpenTelemetryIsClean();
    CodeIndexIsClean();
    LocalTelemetryIsClean();
  }

  /** Normalising twice is normalising once, so a normalised id always names the same tool. */
  lemma NormalizeIdempotent(s: Id)
    ensures Normalize(Normalize(s)) == Normalize(s)
  {
    hide Clean, IsClean, Alias;
    CleanIsClean(s);
    AliasesAreClean(Clean(s));
    CleanKeepsClean(Normalize(s));
    AliasIdempotent(Clean(s));
  }

  /** The tools of the quality catalog. */
  function CatalogTool(i: nat): Id
    requires i < 8
  {
    match i
    case 0 => "native_code_index_contract"
    case 1 => "local_telemetry_contract"
    case 2 => "tree_sitter"
    case 3 => "opentelemetry"
    case 4 => "semgrep"
    case 5 => "gitleaks"
    case 6 => "trivy"
    case _ => "deferred_tools_group"
  }

  lemma LongIdsAreClean()
    ensures IsClean(CatalogTool(0)) && IsClean(CatalogTool(1))
  {
  }

  lemma ShortIdsAreClean(i: nat)
    requires 2 <= i < 7
    ensures IsClean(CatalogTool(i))
  {
  }

  lemma CatalogIsClean(i: nat)
    requires i < 8
    ensures IsClean(CatalogTool(i))
  {
    if i < 2 {
      hide IsClean, CatalogTool;
      LongIdsAreClean();
    } else if i < 7 {
      hide IsClean, CatalogTool;
      ShortIdsAreClean(i);
    }
  }

  lemma CatalogAliases(i: nat)
    requires i < 8
    ensures |Alias(CatalogTool(i))| == match i
                                       case 0 => 17 case 1 => 15 case 2 => 11 case 3 => 13
                                       case 4 => 7 case 5 => 8 case 6 => 5 case _ => 20
  {
  }

  /** The catalog's ids normalise to distinct canonical ids. */
  lemma CatalogIdsStayApart(i: nat, j: nat)
    requires i < 8 && j < 8 && Normalize(CatalogTool(i)) == Normalize(CatalogTool(j))
    ensures i == j
  {
    hide CatalogTool, Alias, IsClean, Clean;
    CatalogIsClean(i);
    CatalogIsClean(j);
    CleanKeepsClean(CatalogTool(i));
    CleanKeepsClean(CatalogTool(j));
    CatalogAliases(i);
    CatalogAliases(j);
  }

  lemma CatalogIdsNormalize(i: nat)
    requires i < 8
    ensures Normalize(CatalogTool(i)) != ""
  {
    hide CatalogTool, Alias, IsClean, Clean;
    CatalogIsClean(i);
    CleanKeepsClean(CatalogTool(i));
    CatalogAliases(i);
  }
}
