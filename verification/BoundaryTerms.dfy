/** The canonical field sets (runtime/governance/boundary_terms.py). */
module BoundaryTerms {
  const SUBSTRATES := {"governance", "retrieval", "visibility", "workflow"}

  const SEMANTIC_AUTHORITY_FIELDS := {
    "capability_escalation", "capability_escalation_allowed", "direct_response_type", "execution_target",
    "expected_output_type", "fallback_engines", "interaction_mode", "lookup_metadata", "memory_write_allowed",
    "memory_writes_allowed", "minimum_engine_tier", "needs_capability_context", "needs_followup_resolution",
    "needs_full_planning", "operation", "planner_semantic_authority", "requires_active_artifact",
    "requires_artifact_context", "requires_current_information", "requires_source_fidelity", "requires_web",
    "semantic_operation", "semantic_output_type", "shared_capability", "task_family", "transform_intent",
    "transform_type", "uses_active_artifact"
  }

  const MEMORY_FIELDS := {
    "memory_state", "memory_write", "memory_write_allowed", "memory_write_performed", "memory_writes_allowed"
  }

  const AUTONOMY_FIELDS := {
    "autonomy_escalation_allowed", "autonomy_escalation_performed", "hidden_autonomy",
    "hidden_autonomy_escalation_allowed", "hidden_autonomy_escalation_performed"
  }

  const MUTATION_FIELDS := {
    "artifact_mutation_performed", "candidate_mutation_performed", "cross_substrate_planner_mutation_performed",
    "db_write_performed", "governance_state_mutation_performed", "retrieval_policy_mutation_performed",
    "workflow_state_mutation_performed"
  }

  // `SUBSTRATE_STATE_FIELDS`, in dictionary order.
  const STATE_SUBSTRATES := ["governance", "retrieval", "workflow", "visibility"]

  function SubstrateStateFields(substrate: string): set<string> {
    if substrate == "governance" then {"governance_state", "governance_policy"}
    else if substrate == "retrieval" then {"retrieval_policy", "lookup_metadata"}
    else if substrate == "workflow" then {"workflow_state", "workflow_status", "workflow_state_mutation_performed"}
    else if substrate == "visibility" then {"planner_prompt", "hidden_context_injection_performed"}
    else {}
  }

  const ALLOWED_VISIBILITY_ATTACHMENT_TARGETS := {
    "audit_receipt", "operator_report", "planner_visible_governance_metadata", "telemetry"
  }

  const ALLOWED_DIAGNOSTIC_ATTACHMENT_TARGETS := {"audit_receipt", "operator_report", "telemetry"}

  const FORBIDDEN_ATTACHMENT_TARGETS := {
    "execution_planner_output", "governance_state", "lookup_metadata", "memory_state", "planner_prompt",
    "retrieval_policy", "semantic_planning_metadata", "workflow_state"
  }

  const FORBIDDEN_CONTENT_FIELDS := {
    "address", "api_key", "article_body", "authorization_header", "bearer_token", "citations", "contact",
    "contact_value", "credential", "credential_env_var", "email", "link", "phone", "prompt", "provider_payload",
    "query", "ranking", "raw_provider_payload", "raw_results", "rendered_context", "results", "secret", "snippet",
    "source_refs", "summary", "title", "token", "url"
  }
}
