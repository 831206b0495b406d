/** What `validate_visibility_attachment` lets through (runtime/governance/visibility_isolation.py). */
module Attachments {
  import opened BoundaryTerms
  import opened JsonValues
  import opened NothingLost
  import opened Text
  import opened ValidatorSupport
  import opened VisibilityIsolation
  import opened Wrappers

  lemma OpenTarget(target: string)
    ensures TargetId(target) in ALLOWED_VISIBILITY_ATTACHMENT_TARGETS
            && TargetId(target) !in FORBIDDEN_ATTACHMENT_TARGETS <==>
              Strip(target) in ALLOWED_VISIBILITY_ATTACHMENT_TARGETS
    ensures TargetId(target) in ALLOWED_DIAGNOSTIC_ATTACHMENT_TARGETS
            && TargetId(target) !in FORBIDDEN_ATTACHMENT_TARGETS <==>
              Strip(target) in ALLOWED_DIAGNOSTIC_ATTACHMENT_TARGETS
  {
  }

  lemma AllThreeEmpty(a: seq<string>, b: seq<string>, c: seq<string>)
    ensures a + (b + c) == [] <==> a == [] && b == [] && c == []
  {
    assert |a + (b + c)| == |a| + |b| + |c|;
  }

  lemma VisibilityAccepted(payload: Json)
    requires payload.Obj?
    ensures Unique(VisibilityViolations(payload)) == [] <==> CleanVisibility(payload)
  {
    VisibilityVisible(payload);
    UniqueKeepsOne(VisibilityViolations(payload));
    VisibilityCleanIff(payload);
  }

  lemma DiagnosticAccepted(payload: Json)
    requires payload.Obj?
    ensures Unique(DiagnosticViolations(payload)) == [] <==> CleanDiagnostic(payload)
  {
    DiagnosticVisible(payload);
    UniqueKeepsOne(DiagnosticViolations(payload));
    DiagnosticCleanIff(payload);
  }

  /** Only targets for visibility surfaces take one, and only a clean one. */
  lemma AttachVisibility(payload: Json, target: string)
    requires payload.Obj? && KindOf(payload).VisibilitySurface?
    ensures AttachmentAllowed(payload, target) <==>
              Strip(target) in ALLOWED_VISIBILITY_ATTACHMENT_TARGETS && CleanVisibility(payload)
  {
    var id := TargetId(target);
    OpenTarget(target);
    VisibilityAccepted(payload);
    AllThreeEmpty(Unless(id !in FORBIDDEN_ATTACHMENT_TARGETS, id),
                  Unless(id in ALLOWED_VISIBILITY_ATTACHMENT_TARGETS, id), Unique(VisibilityViolations(payload)));
  }

  /** Only targets for diagnostics take one, and only a clean one. */
  lemma AttachDiagnostic(payload: Json, target: string)
    requires payload.Obj? && KindOf(payload).DiagnosticSurface?
    ensures AttachmentAllowed(payload, target) <==>
              Strip(target) in ALLOWED_DIAGNOSTIC_ATTACHMENT_TARGETS && CleanDiagnostic(payload)
  {
    var id := TargetId(target);
    OpenTarget(target);
    DiagnosticAccepted(payload);
    AllThreeEmpty(Unless(id !in FORBIDDEN_ATTACHMENT_TARGETS, id),
                  Unless(id in ALLOWED_DIAGNOSTIC_ATTACHMENT_TARGETS, id), Unique(DiagnosticViolations(payload)));
  }

  lemma OperatorReport()
    ensures Strip("operator_report") in ALLOWED_DIAGNOSTIC_ATTACHMENT_TARGETS
  {
    StripFacts("operator_report");
  }

  /** The operator report takes every clean diagnostic. */
  lemma OperatorReportTakes(payload: Json)
    requires CleanDiagnostic(payload)
    ensures AttachmentAllowed(payload, "operator_report")
  {
    OperatorReport();
    AttachDiagnostic(payload, "operator_report");
  }

  /** The violations of the surface itself, each once. */
  method CheckSurfaceOf(payload: Json, kind: SurfaceKind) returns (found: seq<string>)
    ensures found == match kind
                     case DiagnosticSurface => Unique(DiagnosticViolations(payload))
                     case VisibilitySurface => Unique(VisibilityViolations(payload))
                     case NoSurface => ["payload"]
  {
    match kind
    case DiagnosticSurface =>
      found := CheckDiagnosticSurface(payload);
      found := UniqueValues(found);
    case VisibilitySurface =>
      found := CheckVisibilitySurface(payload);
      found := UniqueValues(found);
    case NoSurface =>
      found := ["payload"];
  }

  method CheckAt(payload: Json, id: string) returns (blocked: seq<string>)
    ensures blocked == ViolationsAt(payload, id)
  {
    var kind := KindOf(payload);
    blocked := AppendUnless(id !in FORBIDDEN_ATTACHMENT_TARGETS, id, []);
    var found := CheckSurfaceOf(payload, kind);
    var closed := match kind
      case DiagnosticSurface => Unless(id in ALLOWED_DIAGNOSTIC_ATTACHMENT_TARGETS, id)
      case VisibilitySurface => Unless(id in ALLOWED_VISIBILITY_ATTACHMENT_TARGETS, id)
      case NoSurface => ["payload"];
    blocked := blocked + (closed + found);
  }

  /** The target is open to surfaces of the payload's kind, and the payload is a clean one. */
  ghost predicate Attachable(payload: Json, target: string) {
    match KindOf(payload)
    case DiagnosticSurface => Strip(target) in ALLOWED_DIAGNOSTIC_ATTACHMENT_TARGETS && CleanDiagnostic(payload)
    case VisibilitySurface => Strip(target) in ALLOWED_VISIBILITY_ATTACHMENT_TARGETS && CleanVisibility(payload)
    case NoSurface => false
  }

  lemma AttachmentExact(payload: Json, target: string)
    ensures AttachmentAllowed(payload, target) <==> Attachable(payload, target)
  {
    match KindOf(payload)
    case DiagnosticSurface => AttachDiagnostic(payload, target);
    case VisibilitySurface => AttachVisibility(payload, target);
    case NoSurface =>
      assert |AttachmentViolations(payload, target)| >= 2;
  }

  /** `validate_visibility_attachment`: nothing is reported exactly for attachable payloads. */
  method CheckAttachment(payload: Json, target: string) returns (blocked: seq<string>)
    ensures blocked == AttachmentViolations(payload, target)
    ensures blocked == [] <==> Attachable(payload, target)
  {
    AttachmentExact(payload, target);
    blocked := CheckAt(payload, TargetId(target));
  }
}
