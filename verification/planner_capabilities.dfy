/**
 The capabilities of the planner's tools read the other way round: the tools that serve each capability, by what it is for.
 */
module PlannerCapabilities {
  import opened Common
  import opened Planner

  function ForCode(c: string): seq<Id> {
    if c == "code_parse" || c == "syntax_tree" then ["tree-sitter"]
    else if c == "code_index" || c == "symbols" || c == "dependencies" then ["native-code-index", "tree-sitter"]
    else []
  }

  function ForObservation(c: string): seq<Id> {
    if c == "local_telemetry" || c == "tracing" || c == "metrics" then ["local-telemetry", "opentelemetry"]
    else if c == "observability" then ["opentelemetry"]
    else []
  }

  function ForSecurity(c: string): seq<Id> {
    if c == "security_scan" then ["gitleaks", "semgrep", "trivy"]
    else if c == "secret_scan" || c == "credential_detection" then ["gitleaks"]
    else if c == "static_analysis" || c == "code_quality" || c == "pattern_scan" then ["semgrep"]
    else if c == "dependency_vulnerability_scan" || c == "container_scan" then ["trivy"]
    else []
  }

  function ForWorkflows(c: string): seq<Id> {
    if c == "workflow_orchestration" || c == "durable_workflow" then ["temporal"]
    else []
  }

  function ToolsWith(c: string): seq<Id> { ForCode(c) + ForObservation(c) + ForSecurity(c) + ForWorkflows(c) }

  lemma ForCodeOnly(c: string, t: Id)
    requires t in ForCode(c)
    ensures t == "native-code-index" || t == "tree-sitter"
  {
  }

  lemma ForObservationOnly(c: string, t: Id)
    requires t in ForObservation(c)
    ensures t == "local-telemetry" || t == "opentelemetry"
  {
  }

  lemma ForSecurityOnly(c: string, t: Id)
    requires t in ForSecurity(c)
    ensures t == "gitleaks" || t == "semgrep" || t == "trivy"
  {
  }

  lemma ForWorkflowsOnly(c: string, t: Id)
    requires t in ForWorkflows(c)
    ensures t == "temporal"
  {
  }

  lemma TreeSitterHas(c: string)
    ensures c in Capabilities("tree-sitter") <==>
            c == "code_parse" || c == "code_index" || c == "symbols" || c == "dependencies" || c == "syntax_tree"
  {
  }

  lemma TreeSitterListed(c: string)
    ensures "tree-sitter" in ForCode(c) <==>
            c == "code_parse" || c == "code_index" || c == "symbols" || c == "dependencies" || c == "syntax_tree"
  {
  }

  lemma TreeSitterAgrees(c: string)
    ensures c in Capabilities("tree-sitter") <==> "tree-sitter" in ToolsWith(c)
  {
    hide Capabilities, ForCode, ForObservation, ForSecurity, ForWorkflows;
    TreeSitterHas(c);
    TreeSitterListed(c);
    assert "tree-sitter" !in ForObservation(c) by { if "tree-sitter" in ForObservation(c) { ForObservationOnly(c, "tree-sitter"); } }
    assert "tree-sitter" !in ForSecurity(c) by { if "tree-sitter" in ForSecurity(c) { ForSecurityOnly(c, "tree-sitter"); } }
    assert "tree-sitter" !in ForWorkflows(c) by { if "tree-sitter" in ForWorkflows(c) { ForWorkflowsOnly(c, "tree-sitter"); } }
  }

  lemma OpenTelemetryHas(c: string)
    ensures c in Capabilities("opentelemetry") <==>
            c == "local_telemetry" || c == "tracing" || c == "metrics" || c == "observability"
  {
  }

  lemma OpenTelemetryListed(c: string)
    ensures "opentelemetry" in ForObservation(c) <==>
            c == "local_telemetry" || c == "tracing" || c == "metrics" || c == "observability"
  {
  }

  lemma OpenTelemetryAgrees(c: string)
    ensures c in Capabilities("opentelemetry") <==> "opentelemetry" in ToolsWith(c)
  {
    hide Capabilities, ForCode, ForObservation, ForSecurity, ForWorkflows;
    OpenTelemetryHas(c);
    OpenTelemetryListed(c);
    assert "opentelemetry" !in ForCode(c) by { if "opentelemetry" in ForCode(c) { ForCodeOnly(c, "opentelemetry"); } }
    assert "opentelemetry" !in ForSecurity(c) by { if "opentelemetry" in ForSecurity(c) { ForSecurityOnly(c, "opentelemetry"); } }
    assert "opentelemetry" !in ForWorkflows(c) by { if "opentelemetry" in ForWorkflows(c) { ForWorkflowsOnly(c, "opentelemetry"); } }
  }

  lemma SemgrepHas(c: string)
    ensures c in Capabilities("semgrep") <==>
            c == "static_analysis" || c == "security_scan" || c == "code_quality" || c == "pattern_scan"
  {
  }

  lemma SemgrepListed(c: string)
    ensures "semgrep" in ForSecurity(c) <==>
            c == "static_analysis" || c == "security_scan" || c == "code_quality" || c == "pattern_scan"
  {
  }

  lemma SemgrepAgrees(c: string)
    ensures c in Capabilities("semgrep") <==> "semgrep" in ToolsWith(c)
  {
    hide Capabilities, ForCode, ForObservation, ForSecurity, ForWorkflows;
    SemgrepHas(c);
    SemgrepListed(c);
    assert "semgrep" !in ForCode(c) by { if "semgrep" in ForCode(c) { ForCodeOnly(c, "semgrep"); } }
    assert "semgrep" !in ForObservation(c) by { if "semgrep" in ForObservation(c) { ForObservationOnly(c, "semgrep"); } }
    assert "semgrep" !in ForWorkflows(c) by { if "semgrep" in ForWorkflows(c) { ForWorkflowsOnly(c, "semgrep"); } }
  }

  lemma GitleaksHas(c: string)
    ensures c in Capabilities("gitleaks") <==> c == "secret_scan" || c == "credential_detection" || c == "security_scan"
  {
  }

  lemma GitleaksListed(c: string)
    ensures "gitleaks" in ForSecurity(c) <==> c == "secret_scan" || c == "credential_detection" || c == "security_scan"
  {
  }

  lemma GitleaksAgrees(c: string)
    ensures c in Capabilities("gitleaks") <==> "gitleaks" in ToolsWith(c)
  {
    hide Capabilities, ForCode, ForObservation, ForSecurity, ForWorkflows;
    GitleaksHas(c);
    GitleaksListed(c);
    assert "gitleaks" !in ForCode(c) by { if "gitleaks" in ForCode(c) { ForCodeOnly(c, "gitleaks"); } }
    assert "gitleaks" !in ForObservation(c) by { if "gitleaks" in ForObservation(c) { ForObservationOnly(c, "gitleaks"); } }
    assert "gitleaks" !in ForWorkflows(c) by { if "gitleaks" in ForWorkflows(c) { ForWorkflowsOnly(c, "gitleaks"); } }
  }

  lemma TrivyHas(c: string)
    ensures c in Capabilities("trivy") <==>
            c == "dependency_vulnerability_scan" || c == "container_scan" || c == "security_scan"
  {
  }

  lemma TrivyListed(c: string)
    ensures "trivy" in ForSecurity(c) <==>
            c == "dependency_vulnerability_scan" || c == "container_scan" || c == "security_scan"
  {
  }

  lemma TrivyAgrees(c: string)
    ensures c in Capabilities("trivy") <==> "trivy" in ToolsWith(c)
  {
    hide Capabilities, ForCode, ForObservation, ForSecurity, ForWorkflows;
    TrivyHas(c);
    TrivyListed(c);
    assert "trivy" !in ForCode(c) by { if "trivy" in ForCode(c) { ForCodeOnly(c, "trivy"); } }
    assert "trivy" !in ForObservation(c) by { if "trivy" in ForObservation(c) { ForObservationOnly(c, "trivy"); } }
    assert "trivy" !in ForWorkflows(c) by { if "trivy" in ForWorkflows(c) { ForWorkflowsOnly(c, "trivy"); } }
  }

  lemma TemporalHas(c: string)
    ensures c in Capabilities("temporal") <==> c == "workflow_orchestration" || c == "durable_workflow"
  {
  }

  lemma TemporalListed(c: string)
    ensures "temporal" in ForWorkflows(c) <==> c == "workflow_orchestration" || c == "durable_workflow"
  {
  }

  lemma TemporalAgrees(c: string)
    ensures c in Capabilities("temporal") <==> "temporal" in ToolsWith(c)
  {
    hide Capabilities, ForCode, ForObservation, ForSecurity, ForWorkflows;
    TemporalHas(c);
    TemporalListed(c);
    assert "temporal" !in ForCode(c) by { if "temporal" in ForCode(c) { ForCodeOnly(c, "temporal"); } }
    assert "temporal" !in ForObservation(c) by { if "temporal" in ForObservation(c) { ForObservationOnly(c, "temporal"); } }
    assert "temporal" !in ForSecurity(c) by { if "temporal" in ForSecurity(c) { ForSecurityOnly(c, "temporal"); } }
  }

  lemma CodeIndexHas(c: string)
    ensures c in Capabilities("native-code-index") <==> c == "code_index" || c == "symbols" || c == "dependencies"
  {
  }

  lemma CodeIndexListed(c: string)
    ensures "native-code-index" in ForCode(c) <==> c == "code_index" || c == "symbols" || c == "dependencies"
  {
  }

  lemma CodeIndexAgrees(c: string)
    ensures c in Capabilities("native-code-index") <==> "native-code-index" in ToolsWith(c)
  {
    hide Capabilities, ForCode, ForObservation, ForSecurity, ForWorkflows;
    CodeIndexHas(c);
    CodeIndexListed(c);
    assert "native-code-index" !in ForObservation(c) by { if "native-code-index" in ForObservation(c) { ForObservationOnly(c, "native-code-index"); } }
    assert "native-code-index" !in ForSecurity(c) by { if "native-code-index" in ForSecurity(c) { ForSecurityOnly(c, "native-code-index"); } }
    assert "native-code-index" !in ForWorkflows(c) by { if "native-code-index" in ForWorkflows(c) { ForWorkflowsOnly(c, "native-code-index"); } }
  }

  lemma LocalTelemetryHas(c: string)
    ensures c in Capabilities("local-telemetry") <==> c == "local_telemetry" || c == "tracing" || c == "metrics"
  {
  }

  lemma LocalTelemetryListed(c: string)
    ensures "local-telemetry" in ForObservation(c) <==> c == "local_telemetry" || c == "tracing" || c == "metrics"
  {
  }

  lemma LocalTelemetryAgrees(c: string)
    ensures c in Capabilities("local-telemetry") <==> "local-telemetry" in ToolsWith(c)
  {
    hide Capabilities, ForCode, ForObservation, ForSecurity, ForWorkflows;
    LocalTelemetryHas(c);
    LocalTelemetryListed(c);
    assert "local-telemetry" !in ForCode(c) by { if "local-telemetry" in ForCode(c) { ForCodeOnly(c, "local-telemetry"); } }
    assert "local-telemetry" !in ForSecurity(c) by { if "local-telemetry" in ForSecurity(c) { ForSecurityOnly(c, "local-telemetry"); } }
    assert "local-telemetry" !in ForWorkflows(c) by { if "local-telemetry" in ForWorkflows(c) { ForWorkflowsOnly(c, "local-telemetry"); } }
  }

  lemma OthersAgree(t: Id, c: string)
    requires t !in CanonicalTools()
    ensures c !in Capabilities(t) && t !in ToolsWith(c)
  {
    NoneForOthers(t, c);
    hide ForCode, ForObservation, ForSecurity, ForWorkflows;
  }

  lemma NoneForOthers(t: Id, c: string)
    requires t !in CanonicalTools()
    ensures t !in ForCode(c) && t !in ForObservation(c) && t !in ForSecurity(c) && t !in ForWorkflows(c)
  {
    hide ForCode, ForObservation, ForSecurity, ForWorkflows;
    if t in ForCode(c) { ForCodeOnly(c, t); }
    if t in ForObservation(c) { ForObservationOnly(c, t); }
    if t in ForSecurity(c) { ForSecurityOnly(c, t); }
    if t in ForWorkflows(c) { ForWorkflowsOnly(c, t); }
  }

  lemma CanonicalIs(t: Id)
    ensures t in CanonicalTools() <==>
            t == "gitleaks" || t == "local-telemetry" || t == "native-code-index" || t == "opentelemetry" || t == "semgrep"
            || t == "temporal" || t == "tree-sitter" || t == "trivy"
  {
  }

  /** A tool has a capability exactly if it is one of the tools that serve it. */
  lemma CapabilityIff(t: Id, c: string)
    ensures c in Capabilities(t) <==> t in ToolsWith(c)
  {
    hide Capabilities, ToolsWith, CanonicalTools;
    TreeSitterAgrees(c);
    OpenTelemetryAgrees(c);
    SemgrepAgrees(c);
    GitleaksAgrees(c);
    TrivyAgrees(c);
    TemporalAgrees(c);
    CodeIndexAgrees(c);
    LocalTelemetryAgrees(c);
    CanonicalIs(t);
    if t !in CanonicalTools() { OthersAgree(t, c); }
  }
}
