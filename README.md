# WinForms design DPI checker, modelled in Dafny

WinFormsDesignDpiChecker is a Roslyn analyzer for C# Windows Forms projects. For every named
type it looks at the immediate base type. Only a type based directly on
`System.Windows.Forms.Form` or `System.Windows.Forms.UserControl` is analysed. For such a type it
walks every `InitializeComponent` member's declaration locations. In each method body found there,
it scans the direct expression statements for the last well-formed
`x.AutoScaleMode = A.B` and `x.AutoScaleDimensions = new T(n1, n2)` assignments. It then reports
at every declaration location of the type:

- **WinFormsDesignDpiChecker0001**: dimensions were recorded, and the mode is `Font` with a pair
  other than (6, 12), or `Dpi` with a pair other than (96, 96).
- **WinFormsDesignDpiChecker0002**: the project property `build_property.WindowsFormsAutoScaleMode`
  is set, a mode was recorded, and the trimmed property equals the mode, ignoring case. The
  diagnostic's message argument is the property exactly as configured, untrimmed.

Files:

- `wrappers.dfy`: `Option`.
- `syntax.dfy`: the symbols and syntax nodes the analyzer reads, as plain datatypes.
- `dotnet_text.dfy`: `String.Trim()` and ordinal case-insensitive equality.
- `dpi_check.dfy`: the analyzer. It has specification functions (`Gate`, `Scan`,
  `AllDiagnostics`, `Analysis`), the host's diagnostic sink as a class, and the analysis as
  methods with loops. Each method is proved to append exactly what the specification functions
  say.
- `dpi_check_facts.dfy`: lemmas about the specification functions.

Behaviour of the code worth knowing:

- The base-type loop (`while (true)` at lines 57-76) reads the base of the same symbol on every
  iteration. It therefore never walks up the inheritance chain. It returns at once for no base
  or `System.Object`, breaks for a WinForms `Form`/`UserControl`, and spins forever for any other
  base. That includes a form class derived from a user-defined form; every struct, enum and
  delegate, whose bases are `System.ValueType`, `System.Enum` and `System.MulticastDelegate`;
  and a control derived directly from another WinForms class such as `Panel` or `ContainerControl`.
  `Gate` has three outcomes, and `Analysis` gives the last one as `Diverges`.
- Rule 0002's message says the mode "is different from" the project value, but the code reports
  when the two are *equal* (line 180).
- Only `ObjectCreationExpressionSyntax` is matched for `AutoScaleDimensions`. A target-typed
  `new(6F, 13F)` is a different syntax node and records nothing (`TargetTypedCreationRecordsNothing`).

## Model

| member | source | states |
|---|---|---|
| DpiCheck.IsSystemWindowsForms | WinFormsDesignDpiChecker/WinFormsDesignDpiCheckAnalyzer.cs:65-69 | the chained namespace test holds exactly for the namespace path System.Windows.Forms under the global namespace |
| DpiCheck.Gate | WinFormsDesignDpiChecker/WinFormsDesignDpiCheckAnalyzer.cs:57-76 | the loop returns exactly for no base or a System.Object base; it breaks exactly for a non-object base named Form or UserControl in System.Windows.Forms; otherwise it never ends |
| DpiCheck.InitializeComponentLocations | WinFormsDesignDpiChecker/WinFormsDesignDpiCheckAnalyzer.cs:78 | a location is listed exactly when some member named InitializeComponent has it among its locations |
| DpiCheckFacts.InitializeComponentLocationsAppend | WinFormsDesignDpiChecker/WinFormsDesignDpiCheckAnalyzer.cs:78 | the flattening keeps member order: locations of a concatenation are the concatenated locations |
| DpiCheckFacts.NoInitializeComponentNoLocations | WinFormsDesignDpiChecker/WinFormsDesignDpiCheckAnalyzer.cs:78 | with no member named InitializeComponent there are no locations to inspect |
| DpiCheck.Assignments | WinFormsDesignDpiChecker/WinFormsDesignDpiCheckAnalyzer.cs:99 | the assignment expressions of the body's direct expression statements, in statement order; there are never more of them than statements |
| DpiCheckFacts.AssignmentsAreDirectAssignmentStatements | WinFormsDesignDpiChecker/WinFormsDesignDpiCheckAnalyzer.cs:99 | an expression is scanned exactly when it is an assignment standing as a direct expression statement of the body; nested blocks and other statements contribute nothing |
| DpiCheckFacts.AssignmentsAppend | WinFormsDesignDpiChecker/WinFormsDesignDpiCheckAnalyzer.cs:99 | the filter keeps statement order: the assignments of concatenated bodies are the concatenated assignments |
| DpiCheck.ModeOf | WinFormsDesignDpiChecker/WinFormsDesignDpiCheckAnalyzer.cs:110-113 | a mode is recorded exactly when the right side is a member access, and it is that access's simple name |
| DpiCheck.AcceptedMode | WinFormsDesignDpiChecker/WinFormsDesignDpiCheckAnalyzer.cs:106-114 | an assignment records a mode exactly when its left side is a member access named AutoScaleMode and its right side a member access; the mode is the right side's simple name |
| DpiCheck.Coerce | WinFormsDesignDpiChecker/WinFormsDesignDpiCheckAnalyzer.cs:126-140 | an int, float or double literal converts to the number it denotes; any other literal to the sentinel -1 |
| DpiCheck.DimensionsOf | WinFormsDesignDpiChecker/WinFormsDesignDpiCheckAnalyzer.cs:118-147 | a pair is recorded exactly for an object creation with an argument list of two numeric, non-negative literals; the pair is their values, so never the -1 sentinel |
| DpiCheck.AcceptedDimensions | WinFormsDesignDpiChecker/WinFormsDesignDpiCheckAnalyzer.cs:106-150 | an assignment records a pair exactly when its left side is a member access named AutoScaleDimensions and its right side gives a pair |
| DpiCheck.Step | WinFormsDesignDpiChecker/WinFormsDesignDpiCheckAnalyzer.cs:104-152 | one iteration of the scan loop: an assignment's accepted mode or pair replaces the corresponding local, anything else leaves it; its properties are stated by the Scan lemmas |
| DpiCheck.Scan | WinFormsDesignDpiChecker/WinFormsDesignDpiCheckAnalyzer.cs:101-152 | the two locals after the loop over all assignments, starting from null; last-wins and skipping are proved by ScanKeepsLastAcceptedMode, ScanKeepsLastAcceptedDimensions and ScanSkipsUnacceptedAssignment |
| DpiCheck.ScanAssignments | WinFormsDesignDpiChecker/WinFormsDesignDpiCheckAnalyzer.cs:101-152 | the loop over the assignments leaves the two locals equal to the scan of all assignments |
| DpiCheckFacts.ScanKeepsLastAcceptedMode | WinFormsDesignDpiChecker/WinFormsDesignDpiCheckAnalyzer.cs:101-114 | the mode is that of the last assignment recording a mode, and null when none does |
| DpiCheckFacts.ScanKeepsLastAcceptedDimensions | WinFormsDesignDpiChecker/WinFormsDesignDpiCheckAnalyzer.cs:102-150 | the pair is that of the last assignment recording a pair, and null when none does |
| DpiCheckFacts.ScanDimensionsNonNegative | WinFormsDesignDpiChecker/WinFormsDesignDpiCheckAnalyzer.cs:126-145 | a recorded pair has both components non-negative |
| DpiCheckFacts.ScanSkipsUnacceptedAssignment | WinFormsDesignDpiChecker/WinFormsDesignDpiCheckAnalyzer.cs:104-152 | an assignment that records nothing, anywhere in the sequence, does not change the scan |
| DpiCheckFacts.StatementThatRecordsNothingIsIgnored | WinFormsDesignDpiChecker/WinFormsDesignDpiCheckAnalyzer.cs:99-152 | a body statement that is not a recording assignment (nested block, other statement, other left side, malformed right side) does not change what the body reports |
| DpiCheck.InspectedBody | WinFormsDesignDpiChecker/WinFormsDesignDpiCheckAnalyzer.cs:82-97 | a body is inspected exactly at a source location whose node is a method declaration with a block body, and it is that block's statements |
| DpiCheck.Rule0001Fires | WinFormsDesignDpiChecker/WinFormsDesignDpiCheckAnalyzer.cs:154-176 | rule 0001's condition: a recorded pair and a Font mode with a pair other than (6, 12), or a Dpi mode with a pair other than (96, 96); concrete cases in BaselinesAreSilent |
| DpiCheck.Rule0002Fires | WinFormsDesignDpiChecker/WinFormsDesignDpiCheckAnalyzer.cs:178-181 | rule 0002's condition: a project setting, a recorded mode, and the trimmed setting equal to the mode ignoring case; concrete cases in Rule0002FiresOnMatch and Rule0002SilentOnMismatch |
| DpiCheck.Reports | WinFormsDesignDpiChecker/WinFormsDesignDpiCheckAnalyzer.cs:160-163 | a reporting loop reports one diagnostic per type location; which one is stated by ReportsAt, and rule 0001's loop at 170-172 and rule 0002's at 182-185 are the same loop |
| DpiCheck.RuleDiagnostics | WinFormsDesignDpiChecker/WinFormsDesignDpiCheckAnalyzer.cs:154-187 | what one scan's locals make the two rules report, rule 0001 first; counted per rule by BodyDiagnosticsByRule |
| DpiCheck.BodyDiagnostics | WinFormsDesignDpiChecker/WinFormsDesignDpiCheckAnalyzer.cs:99-187 | what one inspected body reports: the rules applied to the scan of its assignments |
| DpiCheck.LocationDiagnostics | WinFormsDesignDpiChecker/WinFormsDesignDpiCheckAnalyzer.cs:82-187 | what one InitializeComponent location reports: nothing when it is skipped, else its body's diagnostics |
| DpiCheck.AllDiagnostics | WinFormsDesignDpiChecker/WinFormsDesignDpiCheckAnalyzer.cs:80-188 | what the loop over the InitializeComponent locations reports, location after location; AllDiagnosticsAppend and AllDiagnosticsWellFormed state its properties |
| DpiCheck.Analysis | WinFormsDesignDpiChecker/WinFormsDesignDpiCheckAnalyzer.cs:49-189 | the outcome of analysing one type: no diagnostics when the gate stops, never ending when it diverges, else the diagnostics of all InitializeComponent locations; AnalysisReportsOnlyWellFormed states its properties |
| DpiCheck.DiagnosticSink.Report | WinFormsDesignDpiChecker/WinFormsDesignDpiCheckAnalyzer.cs:162 | reporting a diagnostic appends it to what the host has received, in order |
| DpiCheck.ReportsAt | WinFormsDesignDpiChecker/WinFormsDesignDpiCheckAnalyzer.cs:160-163 | the k-th diagnostic of a reporting loop is the rule's diagnostic at the type's k-th location |
| DpiCheck.ReportAt | WinFormsDesignDpiChecker/WinFormsDesignDpiCheckAnalyzer.cs:160-163 | the reporting loop appends one diagnostic per type location, in order, to what was reported before |
| DpiCheck.CheckDimensions | WinFormsDesignDpiChecker/WinFormsDesignDpiCheckAnalyzer.cs:154-176 | rule 0001 reports at every type location when a pair was recorded and differs from the Font or Dpi baseline, and appends nothing otherwise |
| DpiCheck.CheckProjectMode | WinFormsDesignDpiChecker/WinFormsDesignDpiCheckAnalyzer.cs:178-187 | rule 0002 reports with the untrimmed setting as argument exactly when the setting is present, a mode was recorded and they match |
| DpiCheck.ReportRules | WinFormsDesignDpiChecker/WinFormsDesignDpiCheckAnalyzer.cs:154-187 | rule 0001's diagnostics are appended before rule 0002's |
| DpiCheck.AnalyzeBody | WinFormsDesignDpiChecker/WinFormsDesignDpiCheckAnalyzer.cs:99-187 | one inspected body appends what its scanned locals make the two rules report |
| DpiCheck.AnalyzeLocation | WinFormsDesignDpiChecker/WinFormsDesignDpiCheckAnalyzer.cs:82-187 | a location with no source tree, no method declaration or no body appends nothing; otherwise its body's diagnostics |
| DpiCheck.AnalyzeLocations | WinFormsDesignDpiChecker/WinFormsDesignDpiCheckAnalyzer.cs:80-188 | the loop over the InitializeComponent locations appends each location's diagnostics in order |
| DpiCheck.AnalyzeNamedTypeSymbol | WinFormsDesignDpiChecker/WinFormsDesignDpiCheckAnalyzer.cs:49-189 | for a type whose gate ends, the analysis completes and reports exactly Analysis's diagnostics, in order |
| DpiCheckFacts.AllDiagnosticsAppend | WinFormsDesignDpiChecker/WinFormsDesignDpiCheckAnalyzer.cs:80-188 | the diagnostics of concatenated location lists are the concatenated diagnostics |
| DpiCheckFacts.SkippedLocationIsIgnored | WinFormsDesignDpiChecker/WinFormsDesignDpiCheckAnalyzer.cs:82-97 | a metadata location, a non-method node or a bodiless method contributes nothing, wherever it stands |
| DpiCheckFacts.CountRuleAppend | WinFormsDesignDpiChecker/WinFormsDesignDpiCheckAnalyzer.cs:154-187 | rule counts add up over concatenated diagnostics |
| DpiCheckFacts.CountRuleReports | WinFormsDesignDpiChecker/WinFormsDesignDpiCheckAnalyzer.cs:160-163 | a reporting loop reports its own rule once per type location and no other rule |
| DpiCheckFacts.BodyDiagnosticsByRule | WinFormsDesignDpiChecker/WinFormsDesignDpiCheckAnalyzer.cs:154-187 | one body reports rule 0001 once per type location exactly under its baseline condition, and rule 0002 once per type location exactly on a trimmed case-insensitive match; nothing else |
| DpiCheckFacts.ReportsMembers | WinFormsDesignDpiChecker/WinFormsDesignDpiCheckAnalyzer.cs:160-185 | every diagnostic of a reporting loop has that loop's rule, argument and one of its locations |
| DpiCheckFacts.AllDiagnosticsWellFormed | WinFormsDesignDpiChecker/WinFormsDesignDpiCheckAnalyzer.cs:80-188 | every diagnostic sits at a type location; rule 0001 has no argument, rule 0002 carries the untrimmed setting |
| DpiCheckFacts.AnalysisReportsOnlyWellFormed | WinFormsDesignDpiChecker/WinFormsDesignDpiCheckAnalyzer.cs:49-189 | a completed analysis reports only such diagnostics, and reports anything only for a direct WinForms Form or UserControl base |
| DpiCheckFacts.ObjectBasedTypeReportsNothing | WinFormsDesignDpiChecker/WinFormsDesignDpiCheckAnalyzer.cs:59-63 | a type without a base or based on System.Object completes with no diagnostics |
| DpiCheckFacts.NonWinFormsBaseDiverges | WinFormsDesignDpiChecker/WinFormsDesignDpiCheckAnalyzer.cs:57-76 | every type whose immediate base is neither System.Object nor in System.Windows.Forms is never analysed: the loop does not end |
| DpiCheckFacts.UserDefinedFormBaseDiverges | WinFormsDesignDpiChecker/WinFormsDesignDpiCheckAnalyzer.cs:57-76 | an example: a type based on the user-defined MyApp.MainFormBase is never analysed |
| DpiCheckFacts.OtherWinFormsBaseDiverges | WinFormsDesignDpiChecker/WinFormsDesignDpiCheckAnalyzer.cs:65-75 | every type based on a System.Windows.Forms class other than Form and UserControl is never analysed: the loop does not end |
| DpiCheckFacts.PanelBaseDiverges | WinFormsDesignDpiChecker/WinFormsDesignDpiCheckAnalyzer.cs:65-75 | an example: a control based directly on System.Windows.Forms.Panel is never analysed |
| DpiCheckFacts.FormOutsideSystemWindowsFormsDiverges | WinFormsDesignDpiChecker/WinFormsDesignDpiCheckAnalyzer.cs:65-69 | a Form in Windows.Forms (no System) does not pass the namespace test |
| DpiCheckFacts.UserControlWithoutInitializeComponentReportsNothing | WinFormsDesignDpiChecker/WinFormsDesignDpiCheckAnalyzer.cs:78-80 | a UserControl without an InitializeComponent member completes with no diagnostics |
| DpiCheckFacts.BaselinesAreSilent | WinFormsDesignDpiChecker/WinFormsDesignDpiCheckAnalyzer.cs:154-176 | (6, 12) under Font and (96, 96) under Dpi are silent, (7, 12) under Font and (96, 95) under Dpi report, a lower-case "font" mode and a missing pair are silent |
| DpiCheckFacts.Rule0002FiresOnMatch | WinFormsDesignDpiChecker/WinFormsDesignDpiCheckAnalyzer.cs:178-181 | " Dpi " against Dpi, "dpi" against Dpi and "inherit" against Inherit all fire |
| DpiCheckFacts.Rule0002SilentOnMismatch | WinFormsDesignDpiChecker/WinFormsDesignDpiCheckAnalyzer.cs:178-181 | a different mode, a missing project setting and a missing mode are silent |
| DpiCheckFacts.FontFormWithWrongDimensionsReportsPerLocation | WinFormsDesignDpiChecker/WinFormsDesignDpiCheckAnalyzer.cs:49-189 | a Form whose InitializeComponent sets (6, 13) and then Font mode, with two declaration locations, reports rule 0001 exactly once at each of them |
| DpiCheckFacts.TargetTypedCreationRecordsNothing | WinFormsDesignDpiChecker/WinFormsDesignDpiCheckAnalyzer.cs:118 | a target-typed new(x, y) records no pair |
| DotNetText.IsWhiteSpace | WinFormsDesignDpiChecker/WinFormsDesignDpiCheckAnalyzer.cs:180 | the characters Char.IsWhiteSpace accepts: U+0009 to U+000D, U+0020, U+0085, U+00A0 and the Unicode space, line and paragraph separators |
| DotNetText.LeadingWhiteSpace | WinFormsDesignDpiChecker/WinFormsDesignDpiCheckAnalyzer.cs:180 | the length of the white-space prefix, at most the string's length; exactness is stated by LeadingWhiteSpaceIsMaximal |
| DotNetText.TrailingWhiteSpace | WinFormsDesignDpiChecker/WinFormsDesignDpiCheckAnalyzer.cs:180 | the length of the white-space suffix, at most the string's length; exactness is stated by TrailingWhiteSpaceIsMaximal |
| DotNetText.TrimStart | WinFormsDesignDpiChecker/WinFormsDesignDpiCheckAnalyzer.cs:180 | the string without its white-space prefix |
| DotNetText.TrimEnd | WinFormsDesignDpiChecker/WinFormsDesignDpiCheckAnalyzer.cs:180 | the string without its white-space suffix |
| DotNetText.Trim | WinFormsDesignDpiChecker/WinFormsDesignDpiCheckAnalyzer.cs:180 | String.Trim(): never longer than the string; TrimKeepsMiddle, TrimHasNoOuterWhiteSpace and TrimEmptyIffAllWhiteSpace state what it keeps and removes |
| DotNetText.EqualsOrdinalIgnoreCase | WinFormsDesignDpiChecker/WinFormsDesignDpiCheckAnalyzer.cs:180 | equal length and equal characters after upper-casing, as StringComparison.OrdinalIgnoreCase compares (ASCII fold only, see Left out) |
| DotNetText.LeadingWhiteSpaceIsMaximal | WinFormsDesignDpiChecker/WinFormsDesignDpiCheckAnalyzer.cs:180 | the counted prefix is all white space and the next character is not |
| DotNetText.TrailingWhiteSpaceIsMaximal | WinFormsDesignDpiChecker/WinFormsDesignDpiCheckAnalyzer.cs:180 | the counted suffix is all white space and the character before it is not |
| DotNetText.TrimKeepsMiddle | WinFormsDesignDpiChecker/WinFormsDesignDpiCheckAnalyzer.cs:180 | the trimmed setting is a contiguous middle part of the setting with only white space around it |
| DotNetText.TrimHasNoOuterWhiteSpace | WinFormsDesignDpiChecker/WinFormsDesignDpiCheckAnalyzer.cs:180 | the trimmed setting neither starts nor ends with white space |
| DotNetText.TrimEmptyIffAllWhiteSpace | WinFormsDesignDpiChecker/WinFormsDesignDpiCheckAnalyzer.cs:180 | the trimmed setting is empty exactly when the setting is all white space |

## Left out

- The diagnostic descriptors' titles, message formats, category and severity (lines 13-39), and
  `Initialize`'s registration, concurrency and generated-code flags (lines 41-48): host
  configuration with no logic. Only the rule ids are modelled.
- The `context.Symbol is not INamedTypeSymbol` early return (lines 51-54): the symbol action is
  registered for named types only, so the model takes a `NamedType` directly.
- Roslyn's symbol and syntax APIs (`GetMembers`, `FindNode`, `SourceTree`, token values) are not
  part of this model. The host supplies their results as the datatypes in `syntax.dfy`.
- The analyzer options provider becomes the `projectSetting` parameter: `Some` when
  `build_property.WindowsFormsAutoScaleMode` is present, `None` otherwise.
- DpiCheck.AnalyzeNamedTypeSymbol: requires a gate that ends. For any other base the source spins
  forever in its `while (true)`, which a terminating method cannot do. The function `Analysis`
  states that case as `Diverges`.
- DpiCheck.Coerce: numbers are reals. The `(float)` casts of `double` and `int` token values
  (lines 128-130) round to the nearest `float` in the source, and that rounding is not modelled.
  For example, a `double` literal `6.0000000001` becomes `6F` in the source, but keeps its exact
  value here. The same holds for the casts repeated inside `DpiCheck.ScanAssignments`.
- DpiCheck.DimensionsOf: the pair it records carries `Coerce`'s exact values, not the rounded
  `float`s, so a pair that rounds to a baseline still reports rule 0001 here.
- DotNetText.EqualsOrdinalIgnoreCase: folds case for ASCII letters only. .NET's ordinal
  case-insensitive comparison also folds non-ASCII letters.
- The assignment operator kind is not modelled, because the source does not check it: a compound
  assignment such as `+=` is treated like `=`.
