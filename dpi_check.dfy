/**
 * The WinForms design DPI analyzer: for one named type it decides from the immediate base type
 * whether to look at the type at all, scans each `InitializeComponent` body for the last
 * well-formed `AutoScaleMode` and `AutoScaleDimensions` assignments, and reports rule
 * WinFormsDesignDpiChecker0001 (dimensions saved for a non-100% DPI scale) and rule
 * WinFormsDesignDpiChecker0002 (mode compared with the project-wide setting) at every
 * declaration location of the type.
 */
module DpiCheck {
  import opened Wrappers
  import opened Syntax
  import opened DotNetText

  const Rule0001Id := "WinFormsDesignDpiChecker0001"
  const Rule0002Id := "WinFormsDesignDpiChecker0002"
  const InitializeComponentName := "InitializeComponent"

  // ---------------------------------------------------------------------------------------
  // Base-type gate

  /** `INamespaceSymbol.Name`: the global namespace's name is empty. */
  function NamespaceName(ns: Namespace): string {
    if ns.GlobalNamespace? then "" else ns.name
  }

  /** `INamespaceSymbol.ContainingNamespace`, which is null for the global namespace. */
  function ContainingNamespace(ns: Namespace): Namespace
    requires ns.NamespaceDecl?
  {
    ns.containing
  }

  const SystemWindowsForms := NamespaceDecl("Forms", NamespaceDecl("Windows", NamespaceDecl("System", GlobalNamespace)))

  /**
   * The four-step namespace test on a base type's containing namespace, evaluated left to
   * right: every `ContainingNamespace` step is reached only after the name before it matched,
   * so no step is taken from the global namespace.
   */
  function IsSystemWindowsForms(ns: Namespace): (b: bool)
    ensures b <==> ns == SystemWindowsForms
  {
    NamespaceName(ns) == "Forms"
    && NamespaceName(ContainingNamespace(ns)) == "Windows"
    && NamespaceName(ContainingNamespace(ContainingNamespace(ns))) == "System"
    && ContainingNamespace(ContainingNamespace(ContainingNamespace(ns))).GlobalNamespace?
  }

  /**
   * How the gate loop ends: by `return` (Stop), by `break` (Proceed), or not at all (Diverge).
   * The loop reads the base of the same symbol on every iteration, so a base that is neither
   * null, `System.Object`, nor WinForms' `Form` or `UserControl` makes it spin forever.
   */
  datatype GateOutcome = Stop | Proceed | Diverge

  function Gate(baseType: Option<BaseType>): (g: GateOutcome)
    ensures g == Stop <==> baseType.None? || baseType.value.isSystemObject
    ensures g == Proceed <==>
      baseType.Some? && !baseType.value.isSystemObject
      && baseType.value.containing == SystemWindowsForms
      && baseType.value.name in {"Form", "UserControl"}
  {
    match baseType
    case None => Stop
    case Some(b) =>
      if b.isSystemObject then Stop
      else if IsSystemWindowsForms(b.containing) && (b.name == "Form" || b.name == "UserControl") then Proceed
      else Diverge
  }

  // ---------------------------------------------------------------------------------------
  // Locating InitializeComponent bodies

  /** All declaration locations of the members named `InitializeComponent`, member by member. */
  function InitializeComponentLocations(members: seq<Member>): (r: seq<MemberLocation>)
    ensures forall l :: l in r <==> exists m :: m in members && m.name == InitializeComponentName && l in m.locations
  {
    if members == [] then []
    else
      var rest := InitializeComponentLocations(members[1..]);
      assert forall m :: m in members <==> m == members[0] || m in members[1..];
      (if members[0].name == InitializeComponentName then members[0].locations else []) + rest
  }

  /** The body inspected at a member location: a method declaration in a source tree that has a block body. */
  function InspectedBody(location: MemberLocation): (r: Option<seq<Statement>>)
    ensures r.Some? <==> location.SourceLocation? && location.node.MethodDeclaration? && location.node.body.Some?
    ensures r.Some? ==> r == location.node.body
  {
    match location
    case SourceLocation(MethodDeclaration(Some(body))) => Some(body)
    case _ => None
  }

  /** The assignments that are the expressions of the body's direct expression statements, in order. */
  function Assignments(body: seq<Statement>): (r: seq<AssignmentExpr>)
    ensures |r| <= |body|
  {
    if body == [] then []
    else
      (match body[0]
       case ExpressionStatement(e) => if e.Assignment? then [e] else []
       case _ => [])
      + Assignments(body[1..])
  }

  // ---------------------------------------------------------------------------------------
  // Literal coercion and the values an assignment records

  /** The switch over a literal token's value: numbers as they are, anything else the sentinel -1. */
  function Coerce(v: LiteralValue): (r: real)
    ensures IsNumeric(v) ==> r == NumberOf(v)
    ensures !IsNumeric(v) ==> r == -1.0
  {
    match v
    case FloatValue(f) => f
    case DoubleValue(d) => d
    case IntValue(i) => i as real
    case OtherValue => -1.0
  }

  /** An `int`, `float` or `double` literal. */
  predicate IsNumeric(v: LiteralValue) {
    v.IntValue? || v.FloatValue? || v.DoubleValue?
  }

  /** The number a numeric literal denotes. */
  function NumberOf(v: LiteralValue): real
    requires IsNumeric(v)
  {
    if v.IntValue? then v.i as real else if v.FloatValue? then v.f else v.d
  }

  /** A literal argument the dimensions rule accepts: numeric and not negative. */
  predicate IsAcceptedNumber(e: Expr) {
    e.Literal? && IsNumeric(e.literal) && NumberOf(e.literal) >= 0.0
  }

  /** The mode recorded from the right side of an `AutoScaleMode` assignment: its simple name. */
  function ModeOf(right: Expr): (m: Option<string>)
    ensures m.Some? <==> right.MemberAccess?
    ensures m.Some? ==> m.value == right.name
  {
    if right.MemberAccess? then Some(right.name) else None
  }

  /** The pair recorded from the right side of an `AutoScaleDimensions` assignment. */
  function DimensionsOf(right: Expr): (d: Option<(real, real)>)
    ensures d.Some? <==>
      right.ObjectCreation? && right.arguments.Some? && |right.arguments.value| == 2
      && IsAcceptedNumber(right.arguments.value[0]) && IsAcceptedNumber(right.arguments.value[1])
    ensures d.Some? ==>
      d.value == (NumberOf(right.arguments.value[0].literal), NumberOf(right.arguments.value[1].literal))
      && d.value.0 >= 0.0 && d.value.1 >= 0.0
  {
    if right.ObjectCreation? && right.arguments.Some? && |right.arguments.value| == 2 then
      var args := right.arguments.value;
      if args[0].Literal? && args[1].Literal? then
        var arg1 := Coerce(args[0].literal);
        var arg2 := Coerce(args[1].literal);
        if arg1 >= 0.0 && arg2 >= 0.0 then Some((arg1, arg2)) else None
      else None
    else None
  }

  /** The mode an assignment records, if it is a well-formed `X.AutoScaleMode = A.B`. */
  function AcceptedMode(a: AssignmentExpr): (m: Option<string>)
    ensures m.Some? <==> a.left.MemberAccess? && a.left.name == "AutoScaleMode" && a.right.MemberAccess?
    ensures m.Some? ==> m.value == a.right.name
  {
    if a.left.MemberAccess? && a.left.name == "AutoScaleMode" then ModeOf(a.right) else None
  }

  /** The pair an assignment records, if it is a well-formed `X.AutoScaleDimensions = new T(n1, n2)`. */
  function AcceptedDimensions(a: AssignmentExpr): (d: Option<(real, real)>)
    ensures d.Some? <==> a.left.MemberAccess? && a.left.name == "AutoScaleDimensions" && DimensionsOf(a.right).Some?
    ensures d.Some? ==> d == DimensionsOf(a.right)
  {
    if a.left.MemberAccess? && a.left.name == "AutoScaleDimensions" then DimensionsOf(a.right) else None
  }

  // ---------------------------------------------------------------------------------------
  // The assignment scan

  /** The two locals the scan updates. */
  datatype ScanState = ScanState(mode: Option<string>, dimensions: Option<(real, real)>)

  /** One assignment: an accepted value replaces the local, anything else leaves it alone. */
  function Step(st: ScanState, a: AssignmentExpr): ScanState {
    ScanState(
      if AcceptedMode(a).Some? then AcceptedMode(a) else st.mode,
      if AcceptedDimensions(a).Some? then AcceptedDimensions(a) else st.dimensions)
  }

  /** The locals after scanning `assignments` from the start. */
  function Scan(assignments: seq<AssignmentExpr>): ScanState
    decreases |assignments|
  {
    if assignments == [] then ScanState(None, None)
    else Step(Scan(assignments[..|assignments| - 1]), assignments[|assignments| - 1])
  }

  /** The linear pass over one body's assignments. */
  method ScanAssignments(assignments: seq<AssignmentExpr>) returns (mode: Option<string>, dimensions: Option<(real, real)>)
    ensures ScanState(mode, dimensions) == Scan(assignments)
  {
    mode, dimensions := None, None;
    var i := 0;
    while i < |assignments|
      invariant 0 <= i <= |assignments|
      invariant ScanState(mode, dimensions) == Scan(assignments[..i])
    {
      var a := assignments[i];
      if a.left.MemberAccess? {
        if a.left.name == "AutoScaleMode" {
          if a.right.MemberAccess? {
            mode := Some(a.right.name);
          }
        }
        if a.left.name == "AutoScaleDimensions" {
          if a.right.ObjectCreation? {
            if a.right.arguments.Some? && |a.right.arguments.value| == 2 {
              var args := a.right.arguments.value;
              if args[0].Literal? && args[1].Literal? {
                var arg1 := Coerce(args[0].literal);
                var arg2 := Coerce(args[1].literal);
                if arg1 >= 0.0 && arg2 >= 0.0 {
                  dimensions := Some((arg1, arg2));
                }
              }
            }
          }
        }
      }
      assert assignments[..i + 1][..i] == assignments[..i];
      i := i + 1;
    }
    assert assignments[..|assignments|] == assignments;
  }

  // ---------------------------------------------------------------------------------------
  // The two rules and what they report

  /** Rule 0001: dimensions recorded and differing from the baseline of a Font or Dpi mode. */
  predicate Rule0001Fires(st: ScanState) {
    st.dimensions.Some?
    && ((st.mode == Some("Font") && (st.dimensions.value.0 != 6.0 || st.dimensions.value.1 != 12.0))
        || (st.mode == Some("Dpi") && (st.dimensions.value.0 != 96.0 || st.dimensions.value.1 != 96.0)))
  }

  /** Rule 0002: a project setting and a mode, equal after trimming the setting, ignoring case. */
  predicate Rule0002Fires(projectSetting: Option<string>, mode: Option<string>) {
    projectSetting.Some? && mode.Some? && EqualsOrdinalIgnoreCase(Trim(projectSetting.value), mode.value)
  }

  /** One diagnostic of the rule at each of the locations, in order. */
  function Reports(ruleId: string, locations: seq<Location>, argument: Option<string>): (ds: seq<Diagnostic>)
    ensures |ds| == |locations|
  {
    if locations == [] then []
    else Reports(ruleId, locations[..|locations| - 1], argument) + [Diagnostic(ruleId, locations[|locations| - 1], argument)]
  }

  /** The k-th diagnostic of a reporting loop is the rule's diagnostic at the k-th location. */
  lemma {:induction false} ReportsAt(ruleId: string, locations: seq<Location>, argument: Option<string>, k: nat)
    requires k < |locations|
    ensures Reports(ruleId, locations, argument)[k] == Diagnostic(ruleId, locations[k], argument)
  {
    if k < |locations| - 1 {
      ReportsAt(ruleId, locations[..|locations| - 1], argument, k);
    }
  }

  /** What the rules report for the scanned locals: rule 0001's diagnostics, then rule 0002's. */
  function RuleDiagnostics(st: ScanState, typeLocations: seq<Location>, projectSetting: Option<string>): seq<Diagnostic> {
    (if Rule0001Fires(st) then Reports(Rule0001Id, typeLocations, None) else [])
    + (if Rule0002Fires(projectSetting, st.mode) then Reports(Rule0002Id, typeLocations, projectSetting) else [])
  }

  /** What one inspected body reports. */
  function BodyDiagnostics(body: seq<Statement>, typeLocations: seq<Location>, projectSetting: Option<string>): seq<Diagnostic> {
    RuleDiagnostics(Scan(Assignments(body)), typeLocations, projectSetting)
  }

  /** What one `InitializeComponent` location reports; skipped locations report nothing. */
  function LocationDiagnostics(location: MemberLocation, typeLocations: seq<Location>, projectSetting: Option<string>): seq<Diagnostic> {
    match InspectedBody(location)
    case None => []
    case Some(body) => BodyDiagnostics(body, typeLocations, projectSetting)
  }

  /** What the locations report, location after location. */
  function AllDiagnostics(locations: seq<MemberLocation>, typeLocations: seq<Location>, projectSetting: Option<string>): seq<Diagnostic>
    decreases |locations|
  {
    if locations == [] then []
    else AllDiagnostics(locations[..|locations| - 1], typeLocations, projectSetting)
         + LocationDiagnostics(locations[|locations| - 1], typeLocations, projectSetting)
  }

  /** The outcome of analysing one type: it never returns, or it returns having reported these. */
  datatype Run = Diverges | Completes(diagnostics: seq<Diagnostic>)

  function Analysis(t: NamedType, projectSetting: Option<string>): Run {
    match Gate(t.baseType)
    case Stop => Completes([])
    case Diverge => Diverges
    case Proceed => Completes(AllDiagnostics(InitializeComponentLocations(t.members), t.locations, projectSetting))
  }

  // ---------------------------------------------------------------------------------------
  // The host's diagnostic sink and the analysis itself

  /** The host side of `ReportDiagnostic`: everything reported so far, in order. */
  class DiagnosticSink {
    var reported: seq<Diagnostic>

    constructor ()
      ensures reported == []
    {
      reported := [];
    }

    method Report(d: Diagnostic)
      modifies this
      ensures reported == old(reported) + [d]
    {
      reported := reported + [d];
    }
  }

  /** A reporting loop: one diagnostic of the rule at each declaration location of the type. */
  method ReportAt(sink: DiagnosticSink, ruleId: string, locations: seq<Location>, argument: Option<string>)
    modifies sink
    ensures sink.reported == old(sink.reported) + Reports(ruleId, locations, argument)
  {
    var i := 0;
    while i < |locations|
      invariant 0 <= i <= |locations|
      invariant sink.reported == old(sink.reported) + Reports(ruleId, locations[..i], argument)
    {
      assert locations[..i + 1][..i] == locations[..i];
      sink.Report(Diagnostic(ruleId, locations[i], argument));
      AppendAssociative(old(sink.reported), Reports(ruleId, locations[..i], argument), [Diagnostic(ruleId, locations[i], argument)]);
      i := i + 1;
    }
    assert locations[..|locations|] == locations;
  }

  /** Rule 0001's check on the scanned locals: the block entered only when a pair was recorded. */
  method CheckDimensions(mode: Option<string>, dimensions: Option<(real, real)>, typeLocations: seq<Location>, sink: DiagnosticSink)
    modifies sink
    ensures sink.reported == old(sink.reported)
      + if Rule0001Fires(ScanState(mode, dimensions)) then Reports(Rule0001Id, typeLocations, None) else []
  {
    if dimensions.Some? {
      if mode == Some("Font") {
        if dimensions.value.0 != 6.0 || dimensions.value.1 != 12.0 {
          ReportAt(sink, Rule0001Id, typeLocations, None);
        }
      } else if mode == Some("Dpi") {
        if dimensions.value.0 != 96.0 || dimensions.value.1 != 96.0 {
          ReportAt(sink, Rule0001Id, typeLocations, None);
        }
      }
    }
  }

  /** Rule 0002's check of the scanned mode against the project setting. */
  method CheckProjectMode(mode: Option<string>, projectSetting: Option<string>, typeLocations: seq<Location>, sink: DiagnosticSink)
    modifies sink
    ensures sink.reported == old(sink.reported)
      + if Rule0002Fires(projectSetting, mode) then Reports(Rule0002Id, typeLocations, projectSetting) else []
  {
    if projectSetting.Some? {
      if mode.Some? && EqualsOrdinalIgnoreCase(Trim(projectSetting.value), mode.value) {
        ReportAt(sink, Rule0002Id, typeLocations, projectSetting);
      }
    }
  }

  /** Both rule checks on the scanned locals, rule 0001 first. */
  method ReportRules(mode: Option<string>, dimensions: Option<(real, real)>, typeLocations: seq<Location>, projectSetting: Option<string>, sink: DiagnosticSink)
    modifies sink
    ensures sink.reported == old(sink.reported) + RuleDiagnostics(ScanState(mode, dimensions), typeLocations, projectSetting)
  {
    ghost var before := sink.reported;
    CheckDimensions(mode, dimensions, typeLocations, sink);
    CheckProjectMode(mode, projectSetting, typeLocations, sink);
    AppendAssociative(before,
      if Rule0001Fires(ScanState(mode, dimensions)) then Reports(Rule0001Id, typeLocations, None) else [],
      if Rule0002Fires(projectSetting, mode) then Reports(Rule0002Id, typeLocations, projectSetting) else []);
  }

  /** The scan and both rule checks for one inspected `InitializeComponent` body. */
  method AnalyzeBody(body: seq<Statement>, typeLocations: seq<Location>, projectSetting: Option<string>, sink: DiagnosticSink)
    modifies sink
    ensures sink.reported == old(sink.reported) + BodyDiagnostics(body, typeLocations, projectSetting)
  {
    var mode, dimensions := ScanAssignments(Assignments(body));
    ReportRules(mode, dimensions, typeLocations, projectSetting, sink);
  }

  /** One iteration of the loop over `InitializeComponent` locations: skip it or analyse its body. */
  method AnalyzeLocation(location: MemberLocation, typeLocations: seq<Location>, projectSetting: Option<string>, sink: DiagnosticSink)
    modifies sink
    ensures sink.reported == old(sink.reported) + LocationDiagnostics(location, typeLocations, projectSetting)
  {
    if location.MetadataLocation? {
      return;
    }
    if !location.node.MethodDeclaration? {
      return;
    }
    if location.node.body.None? {
      return;
    }
    AnalyzeBody(location.node.body.value, typeLocations, projectSetting, sink);
  }

  /** The loop over the declaration locations of the `InitializeComponent` members. */
  method AnalyzeLocations(locations: seq<MemberLocation>, typeLocations: seq<Location>, projectSetting: Option<string>, sink: DiagnosticSink)
    modifies sink
    ensures sink.reported == old(sink.reported) + AllDiagnostics(locations, typeLocations, projectSetting)
  {
    var i := 0;
    while i < |locations|
      invariant 0 <= i <= |locations|
      invariant sink.reported == old(sink.reported) + AllDiagnostics(locations[..i], typeLocations, projectSetting)
    {
      AnalyzeLocation(locations[i], typeLocations, projectSetting, sink);
      AllDiagnosticsSnoc(locations, i, typeLocations, projectSetting);
      AppendAssociative(old(sink.reported), AllDiagnostics(locations[..i], typeLocations, projectSetting),
                        LocationDiagnostics(locations[i], typeLocations, projectSetting));
      i := i + 1;
    }
    assert locations[..|locations|] == locations;
  }

  lemma AppendAssociative<T>(a: seq<T>, b: seq<T>, c: seq<T>)
    ensures a + b + c == a + (b + c)
  {
  }

  /** `AllDiagnostics` on one more location. */
  lemma AllDiagnosticsSnoc(locations: seq<MemberLocation>, i: nat, typeLocations: seq<Location>, projectSetting: Option<string>)
    requires i < |locations|
    ensures AllDiagnostics(locations[..i + 1], typeLocations, projectSetting)
         == AllDiagnostics(locations[..i], typeLocations, projectSetting) + LocationDiagnostics(locations[i], typeLocations, projectSetting)
  {
    assert locations[..i + 1][..i] == locations[..i];
  }

  /**
   * The analysis of one named type. It is only called on types whose gate loop ends;
   * `Analysis` gives the one that never ends as `Diverges`.
   */
  method AnalyzeNamedTypeSymbol(t: NamedType, projectSetting: Option<string>, sink: DiagnosticSink)
    requires Gate(t.baseType) != Diverge
    modifies sink
    ensures Analysis(t, projectSetting).Completes?
    ensures sink.reported == old(sink.reported) + Analysis(t, projectSetting).diagnostics
  {
    if Gate(t.baseType) == Stop {
      return;
    }
    var locations := InitializeComponentLocations(t.members);
    AnalyzeLocations(locations, t.locations, projectSetting, sink);
  }
}
