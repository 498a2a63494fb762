/**
 * Properties of the DPI analyzer's model: what the assignment scan keeps, what is skipped
 * without effect, how many diagnostics each rule reports and what they carry, and how the
 * base-type gate decides.
 */
module DpiCheckFacts {
  import opened Wrappers
  import opened Syntax
  import opened DotNetText
  import opened DpiCheck

  // ---------------------------------------------------------------------------------------
  // The assignment scan

  /** The scanned mode comes from the last assignment that records a mode; none records, none kept. */
  lemma {:induction false} ScanKeepsLastAcceptedMode(assignments: seq<AssignmentExpr>)
    ensures (forall i :: 0 <= i < |assignments| ==> AcceptedMode(assignments[i]).None?) ==> Scan(assignments).mode.None?
    ensures forall i :: 0 <= i < |assignments| && AcceptedMode(assignments[i]).Some?
                        && (forall j :: i < j < |assignments| ==> AcceptedMode(assignments[j]).None?)
                        ==> Scan(assignments).mode == AcceptedMode(assignments[i])
  {
    if assignments != [] {
      var n := |assignments|;
      var init := assignments[..n - 1];
      ScanKeepsLastAcceptedMode(init);
      assert Scan(assignments) == Step(Scan(init), assignments[n - 1]);
      forall i | 0 <= i < n && AcceptedMode(assignments[i]).Some? && (forall j :: i < j < n ==> AcceptedMode(assignments[j]).None?)
        ensures Scan(assignments).mode == AcceptedMode(assignments[i])
      {
        if i < n - 1 {
          assert init[i] == assignments[i];
          assert forall j :: i < j < n - 1 ==> init[j] == assignments[j];
        }
      }
      if forall i :: 0 <= i < n ==> AcceptedMode(assignments[i]).None? {
        assert forall i :: 0 <= i < n - 1 ==> init[i] == assignments[i];
      }
    }
  }

  /** The scanned pair comes from the last assignment that records a pair; none records, none kept. */
  lemma {:induction false} ScanKeepsLastAcceptedDimensions(assignments: seq<AssignmentExpr>)
    ensures (forall i :: 0 <= i < |assignments| ==> AcceptedDimensions(assignments[i]).None?) ==> Scan(assignments).dimensions.None?
    ensures forall i :: 0 <= i < |assignments| && AcceptedDimensions(assignments[i]).Some?
                        && (forall j :: i < j < |assignments| ==> AcceptedDimensions(assignments[j]).None?)
                        ==> Scan(assignments).dimensions == AcceptedDimensions(assignments[i])
  {
    if assignments != [] {
      var n := |assignments|;
      var init := assignments[..n - 1];
      ScanKeepsLastAcceptedDimensions(init);
      assert Scan(assignments) == Step(Scan(init), assignments[n - 1]);
      forall i | 0 <= i < n && AcceptedDimensions(assignments[i]).Some? && (forall j :: i < j < n ==> AcceptedDimensions(assignments[j]).None?)
        ensures Scan(assignments).dimensions == AcceptedDimensions(assignments[i])
      {
        if i < n - 1 {
          assert init[i] == assignments[i];
          assert forall j :: i < j < n - 1 ==> init[j] == assignments[j];
        }
      }
      if forall i :: 0 <= i < n ==> AcceptedDimensions(assignments[i]).None? {
        assert forall i :: 0 <= i < n - 1 ==> init[i] == assignments[i];
      }
    }
  }

  /** A recorded pair is never negative: the -1 sentinel of a non-numeric literal never gets through. */
  lemma {:induction false} ScanDimensionsNonNegative(assignments: seq<AssignmentExpr>)
    ensures Scan(assignments).dimensions.Some? ==>
      Scan(assignments).dimensions.value.0 >= 0.0 && Scan(assignments).dimensions.value.1 >= 0.0
  {
    if assignments != [] {
      ScanDimensionsNonNegative(assignments[..|assignments| - 1]);
    }
  }

  /** An assignment that records nothing, wherever it stands, leaves the scan's result unchanged. */
  lemma {:induction false} ScanSkipsUnacceptedAssignment(before: seq<AssignmentExpr>, a: AssignmentExpr, after: seq<AssignmentExpr>)
    requires AcceptedMode(a).None? && AcceptedDimensions(a).None?
    ensures Scan(before + [a] + after) == Scan(before + after)
    decreases |after|
  {
    if after == [] {
      assert (before + [a])[..|before|] == before;
      assert before + [a] + [] == before + [a];
      assert before + [] == before;
    } else {
      var init := after[..|after| - 1];
      ScanSkipsUnacceptedAssignment(before, a, init);
      assert (before + [a] + after)[..|before + [a] + after| - 1] == before + [a] + init;
      assert (before + after)[..|before + after| - 1] == before + init;
    }
  }

  /** The assignments of two statement lists one after the other. */
  lemma {:induction false} AssignmentsAppend(first: seq<Statement>, second: seq<Statement>)
    ensures Assignments(first + second) == Assignments(first) + Assignments(second)
  {
    if first != [] {
      AssignmentsAppend(first[1..], second);
      assert (first + second)[0] == first[0];
      assert (first + second)[1..] == first[1..] + second;
      AppendAssociative(Assignments([first[0]]), Assignments(first[1..]), Assignments(second));
    } else {
      assert first + second == second;
    }
  }

  /** The scanned assignments are exactly the assignments standing as direct expression statements of the body. */
  lemma {:induction false} AssignmentsAreDirectAssignmentStatements(body: seq<Statement>)
    ensures forall e: Expr :: e in Assignments(body) <==> e.Assignment? && ExpressionStatement(e) in body
  {
    if body != [] {
      AssignmentsAreDirectAssignmentStatements(body[1..]);
      assert forall s :: s in body <==> s == body[0] || s in body[1..];
    }
  }

  /** A statement whose expression is an assignment that records a mode or a pair. */
  predicate Records(s: Statement) {
    s.ExpressionStatement? && s.expression.Assignment?
    && (AcceptedMode(s.expression).Some? || AcceptedDimensions(s.expression).Some?)
  }

  /**
   * Every other direct statement of an `InitializeComponent` body (a nested block, a statement
   * that is not an expression statement, an assignment to another property or to a plain name,
   * a malformed right side) changes nothing that body reports.
   */
  lemma StatementThatRecordsNothingIsIgnored(before: seq<Statement>, s: Statement, after: seq<Statement>,
                                             typeLocations: seq<Location>, projectSetting: Option<string>)
    requires !Records(s)
    ensures BodyDiagnostics(before + [s] + after, typeLocations, projectSetting)
         == BodyDiagnostics(before + after, typeLocations, projectSetting)
  {
    AssignmentsAppend(before + [s], after);
    AssignmentsAppend(before, [s]);
    AssignmentsAppend(before, after);
    assert [s][1..] == [];
    if s.ExpressionStatement? && s.expression.Assignment? {
      assert Assignments([s]) == [s.expression];
      ScanSkipsUnacceptedAssignment(Assignments(before), s.expression, Assignments(after));
    } else {
      assert Assignments([s]) == [];
      assert Assignments(before) + [] == Assignments(before);
    }
  }

  // ---------------------------------------------------------------------------------------
  // The loop over InitializeComponent locations

  /** The locations of two member lists one after the other: members keep their order. */
  lemma {:induction false} InitializeComponentLocationsAppend(first: seq<Member>, second: seq<Member>)
    ensures InitializeComponentLocations(first + second)
         == InitializeComponentLocations(first) + InitializeComponentLocations(second)
  {
    if first != [] {
      InitializeComponentLocationsAppend(first[1..], second);
      assert (first + second)[0] == first[0];
      assert (first + second)[1..] == first[1..] + second;
      AppendAssociative(if first[0].name == InitializeComponentName then first[0].locations else [],
                        InitializeComponentLocations(first[1..]), InitializeComponentLocations(second));
    } else {
      assert first + second == second;
    }
  }

  /** The diagnostics of two runs of locations one after the other. */
  lemma {:induction false} AllDiagnosticsAppend(first: seq<MemberLocation>, second: seq<MemberLocation>,
                                                typeLocations: seq<Location>, projectSetting: Option<string>)
    ensures AllDiagnostics(first + second, typeLocations, projectSetting)
         == AllDiagnostics(first, typeLocations, projectSetting) + AllDiagnostics(second, typeLocations, projectSetting)
    decreases |second|
  {
    if second == [] {
      assert first + second == first;
    } else {
      var init := second[..|second| - 1];
      AllDiagnosticsAppend(first, init, typeLocations, projectSetting);
      assert (first + second)[..|first + second| - 1] == first + init;
      assert (first + second)[|first + second| - 1] == second[|second| - 1];
      AppendAssociative(AllDiagnostics(first, typeLocations, projectSetting),
                        AllDiagnostics(init, typeLocations, projectSetting),
                        LocationDiagnostics(second[|second| - 1], typeLocations, projectSetting));
    }
  }

  /**
   * A location in metadata, a location whose node is not a method declaration, and a method
   * declaration without a block body are skipped without effect.
   */
  lemma SkippedLocationIsIgnored(before: seq<MemberLocation>, location: MemberLocation, after: seq<MemberLocation>,
                                 typeLocations: seq<Location>, projectSetting: Option<string>)
    requires location.MetadataLocation? || location.node.OtherNode? || location.node.body.None?
    ensures AllDiagnostics(before + [location] + after, typeLocations, projectSetting)
         == AllDiagnostics(before + after, typeLocations, projectSetting)
  {
    AllDiagnosticsAppend(before + [location], after, typeLocations, projectSetting);
    AllDiagnosticsAppend(before, [location], typeLocations, projectSetting);
    AllDiagnosticsAppend(before, after, typeLocations, projectSetting);
    assert [location][..0] == [];
    assert AllDiagnostics([location], typeLocations, projectSetting) == [];
    assert AllDiagnostics(before, typeLocations, projectSetting) + [] == AllDiagnostics(before, typeLocations, projectSetting);
  }

  // ---------------------------------------------------------------------------------------
  // What is reported

  /** How many of the diagnostics carry the rule id. */
  function CountRule(ds: seq<Diagnostic>, ruleId: string): nat {
    if ds == [] then 0 else (if ds[0].ruleId == ruleId then 1 else 0) + CountRule(ds[1..], ruleId)
  }

  lemma {:induction false} CountRuleAppend(a: seq<Diagnostic>, b: seq<Diagnostic>, ruleId: string)
    ensures CountRule(a + b, ruleId) == CountRule(a, ruleId) + CountRule(b, ruleId)
  {
    if a != [] {
      CountRuleAppend(a[1..], b, ruleId);
      assert (a + b)[0] == a[0];
      assert (a + b)[1..] == a[1..] + b;
    } else {
      assert a + b == b;
    }
  }

  /** A reporting loop reports its rule once per location and no other rule. */
  lemma {:induction false} CountRuleReports(reported: string, locations: seq<Location>, argument: Option<string>, ruleId: string)
    ensures CountRule(Reports(reported, locations, argument), ruleId) == if reported == ruleId then |locations| else 0
  {
    if locations != [] {
      var init := locations[..|locations| - 1];
      CountRuleReports(reported, init, argument, ruleId);
      CountRuleAppend(Reports(reported, init, argument), [Diagnostic(reported, locations[|locations| - 1], argument)], ruleId);
    }
  }

  lemma RuleIdsDiffer()
    ensures Rule0001Id != Rule0002Id
  {
    assert Rule0001Id[27] != Rule0002Id[27];
  }

  /**
   * One inspected body reports rule 0001 once per type location exactly when a pair was
   * recorded and the mode is `Font` with a pair other than (6, 12) or `Dpi` with a pair other
   * than (96, 96); it reports rule 0002 once per type location exactly when a project setting
   * exists, a mode was recorded, and the trimmed setting equals the mode ignoring case.
   * Nothing else is reported.
   */
  lemma BodyDiagnosticsByRule(body: seq<Statement>, typeLocations: seq<Location>, projectSetting: Option<string>)
    ensures var st := Scan(Assignments(body));
      CountRule(BodyDiagnostics(body, typeLocations, projectSetting), Rule0001Id)
        == if st.dimensions.Some?
              && ((st.mode == Some("Font") && st.dimensions.value != (6.0, 12.0))
                  || (st.mode == Some("Dpi") && st.dimensions.value != (96.0, 96.0)))
           then |typeLocations| else 0
    ensures var st := Scan(Assignments(body));
      CountRule(BodyDiagnostics(body, typeLocations, projectSetting), Rule0002Id)
        == if projectSetting.Some? && st.mode.Some? && EqualsOrdinalIgnoreCase(Trim(projectSetting.value), st.mode.value)
           then |typeLocations| else 0
    ensures var st := Scan(Assignments(body));
      |BodyDiagnostics(body, typeLocations, projectSetting)|
        == (if Rule0001Fires(st) then |typeLocations| else 0) + (if Rule0002Fires(projectSetting, st.mode) then |typeLocations| else 0)
  {
    var st := Scan(Assignments(body));
    var first := if Rule0001Fires(st) then Reports(Rule0001Id, typeLocations, None) else [];
    var second := if Rule0002Fires(projectSetting, st.mode) then Reports(Rule0002Id, typeLocations, projectSetting) else [];
    RuleIdsDiffer();
    CountRuleAppend(first, second, Rule0001Id);
    CountRuleAppend(first, second, Rule0002Id);
    CountRuleReports(Rule0001Id, typeLocations, None, Rule0001Id);
    CountRuleReports(Rule0001Id, typeLocations, None, Rule0002Id);
    CountRuleReports(Rule0002Id, typeLocations, projectSetting, Rule0001Id);
    CountRuleReports(Rule0002Id, typeLocations, projectSetting, Rule0002Id);
  }

  /** A diagnostic the analyzer can report for a type with these locations and this setting. */
  predicate WellFormed(d: Diagnostic, typeLocations: seq<Location>, projectSetting: Option<string>) {
    d.location in typeLocations
    && ((d.ruleId == Rule0001Id && d.argument.None?)
        || (d.ruleId == Rule0002Id && projectSetting.Some? && d.argument == projectSetting))
  }

  lemma ReportsMembers(ruleId: string, locations: seq<Location>, argument: Option<string>)
    ensures forall d :: d in Reports(ruleId, locations, argument) ==>
      d.ruleId == ruleId && d.location in locations && d.argument == argument
  {
    var ds := Reports(ruleId, locations, argument);
    forall d | d in ds
      ensures d.ruleId == ruleId && d.location in locations && d.argument == argument
    {
      var k :| 0 <= k < |ds| && ds[k] == d;
      ReportsAt(ruleId, locations, argument, k);
    }
  }

  /**
   * Every diagnostic is anchored at a declaration location of the type; rule 0001 carries no
   * argument, and rule 0002 carries the project setting exactly as configured, untrimmed.
   */
  lemma {:induction false} AllDiagnosticsWellFormed(locations: seq<MemberLocation>, typeLocations: seq<Location>, projectSetting: Option<string>)
    ensures forall d :: d in AllDiagnostics(locations, typeLocations, projectSetting) ==> WellFormed(d, typeLocations, projectSetting)
    decreases |locations|
  {
    if locations != [] {
      AllDiagnosticsWellFormed(locations[..|locations| - 1], typeLocations, projectSetting);
      ReportsMembers(Rule0001Id, typeLocations, None);
      ReportsMembers(Rule0002Id, typeLocations, projectSetting);
    }
  }

  /** The whole analysis: nothing but well-formed diagnostics, and only for a WinForms `Form` or `UserControl` base. */
  lemma AnalysisReportsOnlyWellFormed(t: NamedType, projectSetting: Option<string>)
    requires Analysis(t, projectSetting).Completes?
    ensures forall d :: d in Analysis(t, projectSetting).diagnostics ==> WellFormed(d, t.locations, projectSetting)
    ensures Analysis(t, projectSetting).diagnostics != [] ==>
      t.baseType.Some? && t.baseType.value.containing == SystemWindowsForms
      && t.baseType.value.name in {"Form", "UserControl"}
  {
    if Gate(t.baseType) == Proceed {
      AllDiagnosticsWellFormed(InitializeComponentLocations(t.members), t.locations, projectSetting);
    }
  }

  // ---------------------------------------------------------------------------------------
  // The gate

  /** A type without a base or based directly on `System.Object` is not analysed and reports nothing. */
  lemma ObjectBasedTypeReportsNothing(t: NamedType, projectSetting: Option<string>)
    requires t.baseType.None? || t.baseType.value.isSystemObject
    ensures Analysis(t, projectSetting) == Completes([])
  {
  }

  /**
   * A type whose immediate base lies outside `System.Windows.Forms` and is not `System.Object`
   * is never analysed: the gate does not walk past the immediate base, and for that base the
   * loop does not end. This covers every type derived from a user-defined form class, and also
   * every struct, enum and delegate, whose bases are `System.ValueType`, `System.Enum` and
   * `System.MulticastDelegate`.
   */
  lemma NonWinFormsBaseDiverges(t: NamedType, projectSetting: Option<string>)
    requires t.baseType.Some? && !t.baseType.value.isSystemObject
    requires t.baseType.value.containing != SystemWindowsForms
    ensures Analysis(t, projectSetting).Diverges?
  {
  }

  /** An example: a form class derived from the user-defined `MyApp.MainFormBase`. */
  lemma UserDefinedFormBaseDiverges(t: NamedType, projectSetting: Option<string>)
    requires t.baseType == Some(BaseType("MainFormBase", false, NamespaceDecl("MyApp", GlobalNamespace)))
    ensures Analysis(t, projectSetting).Diverges?
  {
    NonWinFormsBaseDiverges(t, projectSetting);
  }

  /** A WinForms base other than `Form` and `UserControl`, such as `Panel`, does not end the loop either. */
  lemma OtherWinFormsBaseDiverges(t: NamedType, projectSetting: Option<string>)
    requires t.baseType.Some? && !t.baseType.value.isSystemObject
    requires t.baseType.value.containing == SystemWindowsForms
    requires t.baseType.value.name != "Form" && t.baseType.value.name != "UserControl"
    ensures Analysis(t, projectSetting).Diverges?
  {
  }

  /** An example: a control derived directly from `System.Windows.Forms.Panel`. */
  lemma PanelBaseDiverges(t: NamedType, projectSetting: Option<string>)
    requires t.baseType == Some(BaseType("Panel", false, SystemWindowsForms))
    ensures Analysis(t, projectSetting).Diverges?
  {
    OtherWinFormsBaseDiverges(t, projectSetting);
  }

  /** The namespace test looks at the whole namespace path, not only at its innermost name. */
  lemma FormOutsideSystemWindowsFormsDiverges(t: NamedType, projectSetting: Option<string>)
    requires t.baseType == Some(BaseType("Form", false, NamespaceDecl("Forms", NamespaceDecl("Windows", GlobalNamespace))))
    ensures Analysis(t, projectSetting).Diverges?
  {
    assert NamespaceDecl("Forms", NamespaceDecl("Windows", GlobalNamespace)) != SystemWindowsForms;
  }

  // ---------------------------------------------------------------------------------------
  // The rules on concrete values

  const FontMode := "Font"
  const DpiMode := "Dpi"

  /** The designer's defaults for each mode are silent; any other pair under that mode reports. */
  lemma BaselinesAreSilent()
    ensures !Rule0001Fires(ScanState(Some(FontMode), Some((6.0, 12.0))))
    ensures Rule0001Fires(ScanState(Some(FontMode), Some((7.0, 12.0))))
    ensures !Rule0001Fires(ScanState(Some(DpiMode), Some((96.0, 96.0))))
    ensures Rule0001Fires(ScanState(Some(DpiMode), Some((96.0, 95.0))))
    ensures !Rule0001Fires(ScanState(Some("font"), Some((7.0, 12.0))))
    ensures !Rule0001Fires(ScanState(Some(FontMode), None))
  {
    assert "font" != FontMode && "font" != DpiMode by { assert "font"[0] != FontMode[0] && |"font"| != |DpiMode|; }
  }

  /** Rule 0002 fires when the mode matches the trimmed setting, whatever the case. */
  lemma Rule0002FiresOnMatch()
    ensures Rule0002Fires(Some(" Dpi "), Some(DpiMode))
    ensures Rule0002Fires(Some("dpi"), Some(DpiMode))
    ensures Rule0002Fires(Some("inherit"), Some("Inherit"))
  {
    assert LeadingWhiteSpace(" Dpi ") == 1 by {
      assert " Dpi "[1..] == "Dpi ";
      assert !IsWhiteSpace("Dpi "[0]);
    }
    assert TrimStart(" Dpi ") == "Dpi ";
    assert TrailingWhiteSpace("Dpi ") == 1 by {
      assert "Dpi "[..3] == "Dpi";
      assert !IsWhiteSpace("Dpi"[2]);
    }
    assert Trim(" Dpi ") == "Dpi";
    assert LeadingWhiteSpace("dpi") == 0 && TrailingWhiteSpace("dpi") == 0;
    assert Trim("dpi") == "dpi";
    assert LeadingWhiteSpace("inherit") == 0 && TrailingWhiteSpace("inherit") == 0;
    assert Trim("inherit") == "inherit";
  }

  /** Rule 0002 is silent on a mismatch, without a project setting, and without a recorded mode. */
  lemma Rule0002SilentOnMismatch()
    ensures !Rule0002Fires(Some("Dpi"), Some(FontMode))
    ensures !Rule0002Fires(None, Some(DpiMode))
    ensures !Rule0002Fires(Some("Dpi"), None)
  {
    assert LeadingWhiteSpace("Dpi") == 0 && TrailingWhiteSpace("Dpi") == 0;
    assert Trim("Dpi") == "Dpi";
  }

  /** `this.AutoScaleMode = AutoScaleMode.Font`. */
  const FontModeAssignment: AssignmentExpr := Assignment(MemberAccess("AutoScaleMode"), MemberAccess(FontMode))

  /** `this.AutoScaleDimensions = new System.Drawing.SizeF(6F, 13F)`. */
  const WrongDimensionsAssignment: AssignmentExpr := Assignment(MemberAccess("AutoScaleDimensions"),
    ObjectCreation("System.Drawing.SizeF", Some([Literal(FloatValue(6.0)), Literal(FloatValue(13.0))])))

  /** A designer body that sets the dimensions first and the mode second. */
  const FontBody := [ExpressionStatement(WrongDimensionsAssignment), ExpressionStatement(FontModeAssignment)]

  lemma FontBodyScan()
    ensures Scan(Assignments(FontBody)) == ScanState(Some(FontMode), Some((6.0, 13.0)))
  {
    var assignments: seq<AssignmentExpr> := [WrongDimensionsAssignment, FontModeAssignment];
    assert Assignments(FontBody) == assignments by {
      assert FontBody[1..][1..] == [];
    }
    assert assignments[..1] == [WrongDimensionsAssignment];
    assert [WrongDimensionsAssignment][..0] == [];
  }

  lemma ReportsAtTwo(ruleId: string, first: Location, second: Location, argument: Option<string>)
    ensures Reports(ruleId, [first, second], argument) == [Diagnostic(ruleId, first, argument), Diagnostic(ruleId, second, argument)]
  {
    ReportsAt(ruleId, [first, second], argument, 0);
    ReportsAt(ruleId, [first, second], argument, 1);
  }

  /** The body alone reports rule 0001 once at each of the two locations, and rule 0002 not at all. */
  lemma FontBodyDiagnostics(first: Location, second: Location)
    ensures BodyDiagnostics(FontBody, [first, second], None)
         == [Diagnostic(Rule0001Id, first, None), Diagnostic(Rule0001Id, second, None)]
  {
    FontBodyScan();
    ReportsAtTwo(Rule0001Id, first, second, None);
    var expected := [Diagnostic(Rule0001Id, first, None), Diagnostic(Rule0001Id, second, None)];
    assert RuleDiagnostics(ScanState(Some(FontMode), Some((6.0, 13.0))), [first, second], None) == expected + [];
    assert expected + [] == expected;
  }

  /**
   * End to end: a form whose `InitializeComponent` sets `new SizeF(6F, 13F)` and then
   * `AutoScaleMode.Font` reports rule 0001 once at each of its two declaration locations.
   */
  lemma FontFormWithWrongDimensionsReportsPerLocation(first: Location, second: Location)
    ensures
      var form := NamedType(
        Some(BaseType("Form", false, SystemWindowsForms)),
        [Member(InitializeComponentName, [SourceLocation(MethodDeclaration(Some(FontBody)))])],
        [first, second]);
      Analysis(form, None) == Completes([Diagnostic(Rule0001Id, first, None), Diagnostic(Rule0001Id, second, None)])
  {
    var location := SourceLocation(MethodDeclaration(Some(FontBody)));
    var members := [Member(InitializeComponentName, [location])];
    assert InitializeComponentLocations(members) == [location];
    FontBodyDiagnostics(first, second);
    var expected := [Diagnostic(Rule0001Id, first, None), Diagnostic(Rule0001Id, second, None)];
    assert [location][..0] == [];
    assert AllDiagnostics([location], [first, second], None) == [] + expected;
    assert [] + expected == expected;
  }

  /** A `UserControl` without an `InitializeComponent` member reports nothing. */
  lemma UserControlWithoutInitializeComponentReportsNothing(t: NamedType, projectSetting: Option<string>)
    requires t.baseType == Some(BaseType("UserControl", false, SystemWindowsForms))
    requires forall m :: m in t.members ==> m.name != InitializeComponentName
    ensures Analysis(t, projectSetting) == Completes([])
  {
    NoInitializeComponentNoLocations(t.members);
  }

  lemma {:induction false} NoInitializeComponentNoLocations(members: seq<Member>)
    requires forall m :: m in members ==> m.name != InitializeComponentName
    ensures InitializeComponentLocations(members) == []
  {
    if members != [] {
      assert members[0] in members;
      NoInitializeComponentNoLocations(members[1..]);
    }
  }

  /** A target-typed `new(6F, 13F)` is not an object creation with a type, so it records no pair. */
  lemma TargetTypedCreationRecordsNothing(x: real, y: real)
    ensures AcceptedDimensions(Assignment(MemberAccess("AutoScaleDimensions"),
      ImplicitObjectCreation([Literal(FloatValue(x)), Literal(FloatValue(y))]))).None?
  {
  }
}
