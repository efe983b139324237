/** From a change to its obligations: risk features, risk level, verification depth, mandatory
    obligations, and the resources they need. */
module RiskPipeline {
  import opened Options

  datatype ChangeClass = BugFix | Feature | SecurityFix | Refactor | Performance | DepApiChange
  datatype Certainty = Confident | Ambiguous | Unknown
  datatype Level = Low | Medium | High

  type Path = string

  /** What the path patterns and the canonical protected manifest say of a normalised path. */
  datatype Patterns = Patterns(isProtected: Path -> bool, isSecurity: Path -> bool, isDependency: Path -> bool,
                               isApi: Path -> bool)

  datatype Features = Features(change: ChangeClass, certainty: Certainty, touched: set<Path>, surfaces: set<Path>,
                               sensitive: set<Path>, files: int, lines: int, api: bool, dependencies: bool,
                               untrusted: bool, contradictory: bool)

  /** The facts of a change before extraction. */
  datatype Facts = Facts(change: ChangeClass, certainty: Certainty, files: seq<string>, lines: int,
                         untrusted: bool, contradictory: bool)

  // ---- extract_risk_features ----

  /** The normalised, non-empty paths of a change. */
  function Touched(norm: string -> Path, files: seq<string>): set<Path>
  {
    set i | 0 <= i < |files| && norm(files[i]) != "" :: norm(files[i])
  }

  function Matching(paths: set<Path>, test: Path -> bool): set<Path>
  {
    set p | p in paths && test(p)
  }

  /** `validate_risk_features_consistency`, which always uses the canonical manifest. */
  predicate Consistent(pats: Patterns, f: Features)
  {
    && f.files == |f.touched|
    && f.sensitive == Matching(f.touched, pats.isSecurity)
    && f.surfaces == Matching(f.touched, pats.isProtected)
    && (Matching(f.touched, pats.isDependency) != {} ==> f.dependencies)
    && (Matching(f.touched, pats.isApi) != {} ==> f.api)
  }

  /** None is a construction that raises. `manifest` is the one the caller passes. */
  function Extract(pats: Patterns, manifest: Path -> bool, norm: string -> Path, x: Facts): Option<Features>
  {
    var touched := Touched(norm, x.files);
    var f := Features(x.change, x.certainty, touched, Matching(touched, manifest), Matching(touched, pats.isSecurity),
                      |touched|, x.lines, Matching(touched, pats.isApi) != {}, Matching(touched, pats.isDependency) != {},
                      x.untrusted, x.contradictory);
    if x.lines < 0 || !Consistent(pats, f) then None else Some(f)
  }

  /** `extract_risk_features` as it runs, one pass over the files. */
  method ExtractRiskFeatures(pats: Patterns, manifest: Path -> bool, norm: string -> Path, x: Facts)
    returns (f: Option<Features>)
    ensures f == Extract(pats, manifest, norm, x)
  {
    var touched, surfaces, sensitive: set<Path> := {}, {}, {};
    var dependencies, api := false, false;
    for i := 0 to |x.files|
      invariant touched == Touched(norm, x.files[..i])
      invariant surfaces == Matching(touched, manifest) && sensitive == Matching(touched, pats.isSecurity)
      invariant dependencies == (Matching(touched, pats.isDependency) != {})
      invariant api == (Matching(touched, pats.isApi) != {})
    {
      TouchedMore(norm, x.files[..i], x.files[i]);
      assert x.files[..i + 1] == x.files[..i] + [x.files[i]];
      var p := norm(x.files[i]);
      if p != "" {
        MatchingMore(touched, manifest, p);
        MatchingMore(touched, pats.isSecurity, p);
        MatchingMore(touched, pats.isDependency, p);
        MatchingMore(touched, pats.isApi, p);
        touched := touched + {p};
        if manifest(p) { surfaces := surfaces + {p}; }
        if pats.isSecurity(p) { sensitive := sensitive + {p}; }
        if pats.isDependency(p) { dependencies := true; }
        if pats.isApi(p) { api := true; }
      }
    }
    assert x.files[..|x.files|] == x.files;
    var g := Features(x.change, x.certainty, touched, surfaces, sensitive, |touched|, x.lines, api, dependencies,
                      x.untrusted, x.contradictory);
    f := if x.lines < 0 || !Consistent(pats, g) then None else Some(g);
  }

  lemma TouchedMore(norm: string -> Path, files: seq<string>, file: string)
    ensures Touched(norm, files + [file]) == Touched(norm, files) + if norm(file) == "" then {} else {norm(file)}
  {
    var more := files + [file];
    assert more[|files|] == file;
    assert forall i :: 0 <= i < |files| ==> more[i] == files[i];
  }

  lemma MatchingMore(paths: set<Path>, test: Path -> bool, p: Path)
    ensures Matching(paths + {p}, test) == Matching(paths, test) + if test(p) then {p} else {}
  {
  }

  // ---- classify_risk ----

  datatype RiskReason =
    | UntrustedMetadata | ContradictorySignals | CertaintyUnknown | ProtectedSurfaces | SecurityChange
    | SensitivePaths | LargeRadius
    | CertaintyAmbiguous | MeasuredClass | ModerateScope | PublicApi | Dependencies | Localized

  /** Declared or recomputed. */
  function AllSurfaces(pats: Patterns, f: Features): set<Path>
  {
    f.surfaces + Matching(f.touched, pats.isProtected)
  }

  function AllSensitive(pats: Patterns, f: Features): set<Path>
  {
    f.sensitive + Matching(f.touched, pats.isSecurity)
  }

  predicate IsHigh(pats: Patterns, f: Features)
  {
    || f.untrusted || f.contradictory || f.certainty == Unknown || AllSurfaces(pats, f) != {}
    || f.change == SecurityFix || AllSensitive(pats, f) != {} || f.files >= 10 || f.lines >= 500
  }

  predicate IsMedium(f: Features)
  {
    || f.certainty == Ambiguous || f.change == Performance || f.change == DepApiChange
    || f.files >= 3 || f.lines >= 100 || f.api || f.dependencies
  }

  function LevelOf(pats: Patterns, f: Features): Level
  {
    if IsHigh(pats, f) then High else if IsMedium(f) then Medium else Low
  }

  /** What each reason stands for. */
  predicate Ground(pats: Patterns, f: Features, level: Level, r: RiskReason)
  {
    match r
    case UntrustedMetadata => level == High && f.untrusted
    case ContradictorySignals => level == High && f.contradictory
    case CertaintyUnknown => level == High && f.certainty == Unknown
    case ProtectedSurfaces => level == High && AllSurfaces(pats, f) != {}
    case SecurityChange => level == High && f.change == SecurityFix
    case SensitivePaths => level == High && AllSensitive(pats, f) != {}
    case LargeRadius => level == High && (f.files >= 10 || f.lines >= 500)
    case CertaintyAmbiguous => level == Medium && f.certainty == Ambiguous
    case MeasuredClass => level == Medium && (f.change == Performance || f.change == DepApiChange)
    case ModerateScope => level == Medium && (f.files >= 3 || f.lines >= 100)
    case PublicApi => level == Medium && f.api
    case Dependencies => level == Medium && f.dependencies
    case Localized => level == Low
  }

  /** `classify_risk` as it runs: a level is high or medium exactly when a reason was collected for it, and
      the reasons are those that hold. */
  method ClassifyRisk(pats: Patterns, f: Features) returns (level: Level, reasons: seq<RiskReason>)
    ensures level == LevelOf(pats, f) && reasons != []
    ensures forall r :: r in reasons <==> Ground(pats, f, level, r)
  {
    reasons := HighReasons(pats, f);
    if reasons != [] {
      return High, reasons;
    }
    reasons := MediumReasons(f);
    if reasons != [] {
      return Medium, reasons;
    }
    level, reasons := Low, [Localized];
  }

  method HighReasons(pats: Patterns, f: Features) returns (reasons: seq<RiskReason>)
    ensures reasons != [] <==> IsHigh(pats, f)
    ensures forall r :: r in reasons <==> Ground(pats, f, High, r)
  {
    reasons := [];
    if f.untrusted { reasons := reasons + [UntrustedMetadata]; }
    if f.contradictory { reasons := reasons + [ContradictorySignals]; }
    if f.certainty == Unknown { reasons := reasons + [CertaintyUnknown]; }
    if AllSurfaces(pats, f) != {} { reasons := reasons + [ProtectedSurfaces]; }
    if f.change == SecurityFix { reasons := reasons + [SecurityChange]; }
    if AllSensitive(pats, f) != {} { reasons := reasons + [SensitivePaths]; }
    if f.files >= 10 || f.lines >= 500 { reasons := reasons + [LargeRadius]; }
  }

  method MediumReasons(f: Features) returns (reasons: seq<RiskReason>)
    ensures reasons != [] <==> IsMedium(f)
    ensures forall pats, r :: r in reasons <==> Ground(pats, f, Medium, r)
  {
    reasons := [];
    if f.certainty == Ambiguous { reasons := reasons + [CertaintyAmbiguous]; }
    if f.change == Performance || f.change == DepApiChange { reasons := reasons + [MeasuredClass]; }
    if f.files >= 3 || f.lines >= 100 { reasons := reasons + [ModerateScope]; }
    if f.api { reasons := reasons + [PublicApi]; }
    if f.dependencies { reasons := reasons + [Dependencies]; }
  }

  // ---- resolve_verification_depth ----

  datatype Action = Base | Candidate | Counterfactual | Slicing | Regression | Equivalence | Measurement | Migration

  datatype Depth = Depth(mandatory: seq<Action>, optional: seq<Action>, budgeted: seq<Action>,
                         minSandboxes: int, minExecutions: int)

  function ClassActions(change: ChangeClass): seq<Action>
  {
    match change
    case Refactor => [Equivalence]
    case Performance => [Measurement]
    case DepApiChange => [Migration]
    case _ => []
  }

  function DepthOf(level: Level, f: Features, allowOptional: bool): Depth
  {
    var common := [Base, Candidate] + ClassActions(f.change);
    match level
    case Low => Depth(common, if allowOptional then [Counterfactual] else [], [Slicing], 2, 2)
    case Medium =>
      if f.change == BugFix || f.change == SecurityFix
      then Depth(common + [Counterfactual], [], [Slicing, Regression], 3, 3)
      else Depth(common, [], [Counterfactual, Slicing, Regression], 3, 3)
    case High =>
      if f.files > 1 || f.change == SecurityFix || f.surfaces != {}
      then Depth(common + [Counterfactual, Regression, Slicing], [], [], 4, 4)
      else Depth(common + [Counterfactual, Regression], [], [Slicing], 4, 4)
  }

  // ---- resolve_mandatory_obligations ----

  datatype Requirement = Requirement(asksCounterrun: bool, asksSlicing: bool)

  /** What the frozen contract demands, explicitly or in the wording of a requirement, and the size of
      the patch. */
  datatype Demands = Demands(counterrun: bool, slicing: bool, contract: Option<seq<Requirement>>, hunks: nat)

  datatype Reason =
    | ContractDemands | RequirementDemands(index: nat) | DepthDemands | HighBehavioral | SecurityElevated
    | OnProtected | OnSensitive | HunksHigh | HunksSecurity | HunksMedium | HunksProtected

  datatype Obligations = Obligations(counterrun: bool, slicing: bool)

  predicate WantsCounterrun(level: Level, f: Features, d: Demands)
  {
    || d.counterrun
    || (d.contract.Some? && exists i :: 0 <= i < |d.contract.value| && Asks(d.contract.value[i], false))
    || Counterfactual in DepthOf(level, f, true).mandatory
    || f.surfaces != {}
    || (f.sensitive != {} && (f.change == BugFix || f.change == SecurityFix))
  }

  predicate WantsSlicing(level: Level, f: Features, d: Demands)
  {
    || d.slicing
    || (d.contract.Some? && exists i :: 0 <= i < |d.contract.value| && Asks(d.contract.value[i], true))
    || Slicing in DepthOf(level, f, true).mandatory
    || (d.hunks > 1 && (level == High || f.change == SecurityFix || f.surfaces != {}))
    || (d.hunks > 3 && level == Medium)
  }

  function ObligationsOf(level: Level, f: Features, d: Demands): Obligations
  {
    Obligations(WantsCounterrun(level, f, d), WantsSlicing(level, f, d))
  }

  predicate Unique(reasons: seq<Reason>)
  {
    forall i, j :: 0 <= i < j < |reasons| ==> reasons[i] != reasons[j]
  }

  /** Keep the first occurrence of each reason. */
  method Deduplicate(reasons: seq<Reason>) returns (clean: seq<Reason>)
    ensures Unique(clean)
    ensures forall r :: r in clean <==> r in reasons
    ensures reasons == [] <==> clean == []
  {
    clean := [];
    for i := 0 to |reasons|
      invariant Unique(clean)
      invariant forall r :: r in clean <==> r in reasons[..i]
      invariant i == 0 <==> clean == []
    {
      assert reasons[..i + 1] == reasons[..i] + [reasons[i]];
      if reasons[i] !in clean {
        clean := clean + [reasons[i]];
      }
    }
    assert reasons[..|reasons|] == reasons;
  }

  predicate Asks(r: Requirement, slicing: bool)
  {
    if slicing then r.asksSlicing else r.asksCounterrun
  }

  method FirstDemand(contract: seq<Requirement>, slicing: bool) returns (at: Option<nat>)
    ensures at.Some? ==> at.value < |contract| && Asks(contract[at.value], slicing)
                         && forall i :: 0 <= i < at.value ==> !Asks(contract[i], slicing)
    ensures at.None? ==> forall i :: 0 <= i < |contract| ==> !Asks(contract[i], slicing)
  {
    for i := 0 to |contract|
      invariant forall j :: 0 <= j < i ==> !Asks(contract[j], slicing)
    {
      if Asks(contract[i], slicing) {
        return Some(i);
      }
    }
    at := None;
  }

  /** What the contract or its first demanding requirement gives as a reason. */
  predicate Demanded(demanded: bool, contract: Option<seq<Requirement>>, slicing: bool, r: Reason)
  {
    || (r == ContractDemands && demanded)
    || (r.RequirementDemands? && !demanded && contract.Some? && r.index < |contract.value|
        && Asks(contract.value[r.index], slicing) && forall i :: 0 <= i < r.index ==> !Asks(contract.value[i], slicing))
  }

  predicate CounterrunGround(level: Level, f: Features, d: Demands, r: Reason)
  {
    match r
    case ContractDemands => d.counterrun
    case RequirementDemands(_) => Demanded(d.counterrun, d.contract, false, r)
    case DepthDemands => Counterfactual in DepthOf(level, f, true).mandatory
    case HighBehavioral => level == High && (f.change == BugFix || f.change == Feature)
    case SecurityElevated => level != Low && f.change == SecurityFix
    case OnProtected => f.surfaces != {}
    case OnSensitive => f.sensitive != {} && (f.change == BugFix || f.change == SecurityFix)
    case _ => false
  }

  predicate SlicingGround(level: Level, f: Features, d: Demands, r: Reason)
  {
    match r
    case ContractDemands => d.slicing
    case RequirementDemands(_) => Demanded(d.slicing, d.contract, true, r)
    case DepthDemands => Slicing in DepthOf(level, f, true).mandatory
    case HunksHigh => d.hunks > 1 && level == High
    case HunksSecurity => d.hunks > 1 && f.change == SecurityFix
    case HunksMedium => d.hunks > 3 && level == Medium
    case HunksProtected => d.hunks > 1 && f.surfaces != {}
    case _ => false
  }

  /** `resolve_mandatory_obligations` as it runs: an obligation holds exactly when a reason was found, and
      the reasons are those that hold. */
  method ResolveObligations(level: Level, f: Features, d: Demands)
    returns (o: Obligations, counterrunReasons: seq<Reason>, slicingReasons: seq<Reason>)
    ensures o == ObligationsOf(level, f, d)
    ensures Unique(counterrunReasons) && Unique(slicingReasons)
    ensures o.counterrun <==> counterrunReasons != []
    ensures o.slicing <==> slicingReasons != []
    ensures forall r :: r in counterrunReasons <==> CounterrunGround(level, f, d, r)
    ensures forall r :: r in slicingReasons <==> SlicingGround(level, f, d, r)
  {
    counterrunReasons := CounterrunReasons(level, f, d);
    slicingReasons := SlicingReasons(level, f, d);
    counterrunReasons := Deduplicate(counterrunReasons);
    slicingReasons := Deduplicate(slicingReasons);
    o := Obligations(counterrunReasons != [], slicingReasons != []);
  }

  method ContractReasons(demanded: bool, contract: Option<seq<Requirement>>, slicing: bool) returns (reasons: seq<Reason>)
    ensures reasons != [] <==>
            demanded || (contract.Some? && exists i :: 0 <= i < |contract.value| && Asks(contract.value[i], slicing))
    ensures forall r :: r in reasons <==> Demanded(demanded, contract, slicing, r)
  {
    reasons := [];
    if demanded {
      reasons := [ContractDemands];
    } else if contract.Some? {
      var at := FirstDemand(contract.value, slicing);
      if at.Some? {
        reasons := [RequirementDemands(at.value)];
      }
    }
  }

  method CounterrunReasons(level: Level, f: Features, d: Demands) returns (reasons: seq<Reason>)
    ensures reasons != [] <==> WantsCounterrun(level, f, d)
    ensures forall r :: r in reasons <==> CounterrunGround(level, f, d, r)
  {
    reasons := ContractReasons(d.counterrun, d.contract, false);
    if Counterfactual in DepthOf(level, f, true).mandatory {
      reasons := reasons + [DepthDemands];
    }
    if level == High && (f.change == BugFix || f.change == Feature) {
      reasons := reasons + [HighBehavioral];
    }
    if f.change == SecurityFix && (level == Medium || level == High) {
      reasons := reasons + [SecurityElevated];
    }
    if f.surfaces != {} {
      reasons := reasons + [OnProtected];
    }
    if f.sensitive != {} && (f.change == BugFix || f.change == SecurityFix) {
      reasons := reasons + [OnSensitive];
    }
  }

  method SlicingReasons(level: Level, f: Features, d: Demands) returns (reasons: seq<Reason>)
    ensures reasons != [] <==> WantsSlicing(level, f, d)
    ensures forall r :: r in reasons <==> SlicingGround(level, f, d, r)
  {
    reasons := ContractReasons(d.slicing, d.contract, true);
    if Slicing in DepthOf(level, f, true).mandatory {
      reasons := reasons + [DepthDemands];
    }
    if d.hunks > 1 && level == High {
      reasons := reasons + [HunksHigh];
    }
    if d.hunks > 1 && f.change == SecurityFix {
      reasons := reasons + [HunksSecurity];
    }
    if d.hunks > 3 && level == Medium {
      reasons := reasons + [HunksMedium];
    }
    if f.surfaces != {} && d.hunks > 1 {
      reasons := reasons + [HunksProtected];
    }
  }

  // ---- calculate_minimum_required_resources ----

  /** A counterrun that is an obligation but not an action of the depth. */
  predicate CounterrunBeside(depth: Depth, o: Obligations)
  {
    o.counterrun && Counterfactual !in depth.mandatory
  }

  predicate SlicingBeside(depth: Depth, o: Obligations)
  {
    o.slicing && Slicing !in depth.mandatory
  }

  /** Sandboxes and verifier executions: both minima of the depth grow by the same amount, of 0 to 3; by
      nothing exactly when every obligation is inside the depth, by an odd amount exactly for a
      counterrun beside it, and by two or more exactly for slicing beside it. */
  method MinimumResources(depth: Depth, o: Obligations) returns (sandboxes: int, executions: int)
    ensures sandboxes - depth.minSandboxes == executions - depth.minExecutions == Extra(depth, o)
    ensures 0 <= sandboxes - depth.minSandboxes <= 3
    ensures sandboxes == depth.minSandboxes <==> !CounterrunBeside(depth, o) && !SlicingBeside(depth, o)
    ensures (sandboxes - depth.minSandboxes) % 2 == 1 <==> CounterrunBeside(depth, o)
    ensures sandboxes - depth.minSandboxes >= 2 <==> SlicingBeside(depth, o)
  {
    sandboxes, executions := depth.minSandboxes, depth.minExecutions;
    if o.counterrun && Counterfactual !in depth.mandatory {
      sandboxes, executions := sandboxes + 1, executions + 1;
    }
    if o.slicing && Slicing !in depth.mandatory {
      sandboxes, executions := sandboxes + 2, executions + 2;
    }
  }

  function Extra(depth: Depth, o: Obligations): int
  {
    (if CounterrunBeside(depth, o) then 1 else 0) + (if SlicingBeside(depth, o) then 2 else 0)
  }

  /** The sandboxes a classified change needs at least. */
  function Floor(level: Level, f: Features, d: Demands): int
  {
    var depth := DepthOf(level, f, true);
    depth.minSandboxes + Extra(depth, ObligationsOf(level, f, d))
  }
}

module RiskProofs {
  import opened Options
  import opened RiskPipeline

  /** Extraction satisfies its own validation exactly when the caller's manifest agrees with the
      canonical one on every touched path, and the line count is not negative. */
  lemma ExtractIff(pats: Patterns, manifest: Path -> bool, norm: string -> Path, x: Facts)
    ensures Extract(pats, manifest, norm, x).Some?
            <==> x.lines >= 0 && forall p :: p in Touched(norm, x.files) ==> manifest(p) == pats.isProtected(p)
  {
    var touched := Touched(norm, x.files);
    if Matching(touched, manifest) == Matching(touched, pats.isProtected) {
      forall p | p in touched ensures manifest(p) == pats.isProtected(p) {
        assert p in Matching(touched, manifest) <==> p in Matching(touched, pats.isProtected);
      }
    } else {
      assert exists p :: p in touched && manifest(p) != pats.isProtected(p);
    }
  }

  // ---- The tables ----

  /** High risk from untrusted, contradictory or unknown facts, a protected or security-sensitive path, a
      security fix, ten files or 500 lines; medium risk, otherwise, from ambiguity, a measured class, a
      public interface or dependency, three files or 100 lines; low risk in all other cases. */
  lemma LevelIff(pats: Patterns, f: Features)
    ensures LevelOf(pats, f) == High
            <==> || f.untrusted || f.contradictory || f.certainty == Unknown || f.change == SecurityFix
                 || f.files >= 10 || f.lines >= 500 || f.surfaces != {} || f.sensitive != {}
                 || exists p :: p in f.touched && (pats.isProtected(p) || pats.isSecurity(p))
    ensures LevelOf(pats, f) == Low
            <==> && LevelOf(pats, f) != High && f.certainty == Confident && f.files < 3 && f.lines < 100
                 && f.change != Performance && f.change != DepApiChange && !f.api && !f.dependencies
  {
    if p :| p in f.touched && (pats.isProtected(p) || pats.isSecurity(p)) {
      assert p in AllSurfaces(pats, f) || p in AllSensitive(pats, f);
    }
  }

  /** At high risk slicing is one of the actions only over several files, for a security fix or on a
      protected surface. */
  predicate Sliced(level: Level, f: Features)
  {
    level == High && (f.files > 1 || f.change == SecurityFix || f.surfaces != {})
  }

  /** Which actions each level demands. */
  lemma MandatoryTable(level: Level, f: Features, optional: bool, a: Action)
    ensures a in DepthOf(level, f, optional).mandatory
            <==> match a
                 case Base => true
                 case Candidate => true
                 case Equivalence => f.change == Refactor
                 case Measurement => f.change == Performance
                 case Migration => f.change == DepApiChange
                 case Counterfactual =>
                   level == High || (level == Medium && (f.change == BugFix || f.change == SecurityFix))
                 case Regression => level == High
                 case Slicing => Sliced(level, f)
  {
    var common := [Base, Candidate] + ClassActions(f.change);
    CommonTable(f.change, a);
    var more := if level == Low || (level == Medium && f.change != BugFix && f.change != SecurityFix) then []
                else if level == Medium then [Counterfactual]
                else if Sliced(level, f) then [Counterfactual, Regression, Slicing] else [Counterfactual, Regression];
    assert DepthOf(level, f, optional).mandatory == common + more;
    assert a in common + more <==> a in common || a in more;
  }

  lemma CommonTable(change: ChangeClass, a: Action)
    ensures a in [Base, Candidate] + ClassActions(change)
            <==> || a == Base || a == Candidate || (a == Equivalence && change == Refactor)
                 || (a == Measurement && change == Performance) || (a == Migration && change == DepApiChange)
  {
  }

  /** Which actions each level allows and leaves to the budget, and how many sandboxes and executions it
      takes at least. */
  lemma DepthTable(level: Level, f: Features, optional: bool, a: Action)
    ensures var depth := DepthOf(level, f, optional);
            && (a in depth.optional <==> a == Counterfactual && level == Low && optional)
            && (a in depth.budgeted <==>
                  || (a == Slicing && !Sliced(level, f)) || (a == Regression && level == Medium)
                  || (a == Counterfactual && level == Medium && f.change != BugFix && f.change != SecurityFix))
            && depth.minSandboxes == depth.minExecutions == Rank(level) + 1
  {
  }

  /** No action is demanded twice. */
  lemma MandatoryDistinct(level: Level, f: Features, optional: bool)
    ensures var actions := DepthOf(level, f, optional).mandatory;
            forall i, j :: 0 <= i < j < |actions| ==> actions[i] != actions[j]
  {
    var own := ClassActions(f.change);
    assert |own| <= 1 && (own == [] || own[0] == Equivalence || own[0] == Measurement || own[0] == Migration);
  }

  /** A counterrun is owed on demand, at high risk, for a fix at medium risk, on a protected surface, and
      for a fix of a sensitive path; slicing on demand, where the depth includes it, for several hunks at
      high risk, of a security fix or on a protected surface, and for more than three at medium risk. */
  lemma ObligationsIff(level: Level, f: Features, d: Demands)
    ensures var o := ObligationsOf(level, f, d);
            var fix := f.change == BugFix || f.change == SecurityFix;
            && (o.counterrun <==>
                  || d.counterrun || level == High || (level == Medium && fix) || f.surfaces != {}
                  || (f.sensitive != {} && fix)
                  || (d.contract.Some? && exists i :: 0 <= i < |d.contract.value| && d.contract.value[i].asksCounterrun))
            && (o.slicing <==>
                  || d.slicing || Sliced(level, f)
                  || (d.hunks > 1 && (level == High || f.change == SecurityFix || f.surfaces != {}))
                  || (d.hunks > 3 && level == Medium)
                  || (d.contract.Some? && exists i :: 0 <= i < |d.contract.value| && d.contract.value[i].asksSlicing))
  {
    MandatoryTable(level, f, true, Counterfactual);
    MandatoryTable(level, f, true, Slicing);
    if d.contract.Some? {
      forall i | 0 <= i < |d.contract.value|
        ensures Asks(d.contract.value[i], false) == d.contract.value[i].asksCounterrun
        ensures Asks(d.contract.value[i], true) == d.contract.value[i].asksSlicing
      {
      }
    }
  }

  // ---- Growth ----

  // ---- Extraction ----

  /** The features of a change that is accepted: the paths it touches, once each; which of them the
      caller's manifest protects and which are security-sensitive; and whether one is an interface or a
      dependency. */
  lemma ExtractedFeatures(pats: Patterns, manifest: Path -> bool, norm: string -> Path, x: Facts, p: Path)
    requires Extract(pats, manifest, norm, x).Some?
    ensures var f := Extract(pats, manifest, norm, x).value;
            && (p in f.touched <==> p != "" && exists i :: 0 <= i < |x.files| && norm(x.files[i]) == p)
            && (p in f.surfaces <==> p in f.touched && manifest(p))
            && (p in f.sensitive <==> p in f.touched && pats.isSecurity(p))
            && (f.api <==> exists q :: q in f.touched && pats.isApi(q))
            && (f.dependencies <==> exists q :: q in f.touched && pats.isDependency(q))
            && f.files == |f.touched| && f.lines == x.lines && f.change == x.change && f.certainty == x.certainty
            && f.untrusted == x.untrusted && f.contradictory == x.contradictory
  {
    var touched := Touched(norm, x.files);
    MatchingAny(touched, pats.isApi);
    MatchingAny(touched, pats.isDependency);
  }

  lemma MatchingAny(paths: set<Path>, test: Path -> bool)
    ensures Matching(paths, test) != {} <==> exists q :: q in paths && test(q)
  {
    if q :| q in paths && test(q) {
      assert q in Matching(paths, test);
    }
  }

  function Rank(level: Level): int
  {
    match level
    case Low => 1
    case Medium => 2
    case High => 3
  }

  function Doubt(c: Certainty): int
  {
    match c
    case Confident => 0
    case Ambiguous => 1
    case Unknown => 2
  }

  /** `y` is a change of the same class with at least the files, lines, flags and doubt of `x`. */
  predicate Grows(x: Facts, y: Facts)
  {
    && x.change == y.change && Doubt(x.certainty) <= Doubt(y.certainty)
    && (forall file :: file in x.files ==> file in y.files)
    && x.lines <= y.lines && (x.untrusted ==> y.untrusted) && (x.contradictory ==> y.contradictory)
  }

  /** The same for what the contract and patch demand. */
  predicate DemandsGrow(d: Demands, e: Demands)
  {
    (d.counterrun ==> e.counterrun) && (d.slicing ==> e.slicing) && d.contract == e.contract && d.hunks <= e.hunks
  }

  /** The order on extracted features. */
  predicate Below(f: Features, g: Features)
  {
    && f.change == g.change && Doubt(f.certainty) <= Doubt(g.certainty)
    && f.touched <= g.touched && f.surfaces <= g.surfaces && f.sensitive <= g.sensitive
    && f.files <= g.files && f.lines <= g.lines && (f.api ==> g.api) && (f.dependencies ==> g.dependencies)
    && (f.untrusted ==> g.untrusted) && (f.contradictory ==> g.contradictory)
  }

  lemma MatchingGrows(a: set<Path>, b: set<Path>, test: Path -> bool)
    requires a <= b
    ensures Matching(a, test) <= Matching(b, test)
  {
  }

  lemma CardGrows(a: set<Path>, b: set<Path>)
    requires a <= b
    ensures |a| <= |b|
  {
    assert b == a + (b - a);
  }

  lemma ExtractGrows(pats: Patterns, manifest: Path -> bool, norm: string -> Path, x: Facts, y: Facts)
    requires Grows(x, y)
    requires Extract(pats, manifest, norm, x).Some? && Extract(pats, manifest, norm, y).Some?
    ensures Below(Extract(pats, manifest, norm, x).value, Extract(pats, manifest, norm, y).value)
  {
    var a, b := Touched(norm, x.files), Touched(norm, y.files);
    forall p | p in a ensures p in b {
      var i :| 0 <= i < |x.files| && norm(x.files[i]) != "" && norm(x.files[i]) == p;
      assert x.files[i] in x.files;
      var j :| 0 <= j < |y.files| && y.files[j] == x.files[i];
    }
    CardGrows(a, b);
    MatchingGrows(a, b, manifest);
    MatchingGrows(a, b, pats.isSecurity);
    MatchingGrows(a, b, pats.isApi);
    MatchingGrows(a, b, pats.isDependency);
  }

  lemma LevelGrows(pats: Patterns, f: Features, g: Features)
    requires Below(f, g)
    ensures Rank(LevelOf(pats, f)) <= Rank(LevelOf(pats, g))
  {
    MatchingGrows(f.touched, g.touched, pats.isProtected);
    MatchingGrows(f.touched, g.touched, pats.isSecurity);
  }

  lemma DepthGrows(pats: Patterns, f: Features, g: Features)
    requires Below(f, g)
    ensures forall a :: a in DepthOf(LevelOf(pats, f), f, true).mandatory ==> a in DepthOf(LevelOf(pats, g), g, true).mandatory
  {
    LevelGrows(pats, f, g);
  }

  lemma ObligationsGrow(pats: Patterns, f: Features, g: Features, d: Demands, e: Demands)
    requires Below(f, g) && DemandsGrow(d, e)
    ensures WantsCounterrun(LevelOf(pats, f), f, d) ==> WantsCounterrun(LevelOf(pats, g), g, e)
    ensures WantsSlicing(LevelOf(pats, f), f, d) ==> WantsSlicing(LevelOf(pats, g), g, e)
  {
    LevelGrows(pats, f, g);
    DepthGrows(pats, f, g);
  }

  /** Growing a change never lowers its risk, never drops a mandatory action, and never drops an
      obligation. */
  lemma RiskMonotone(pats: Patterns, manifest: Path -> bool, norm: string -> Path, x: Facts, y: Facts,
                     d: Demands, e: Demands)
    requires Grows(x, y) && DemandsGrow(d, e)
    requires Extract(pats, manifest, norm, x).Some? && Extract(pats, manifest, norm, y).Some?
    ensures var f, g := Extract(pats, manifest, norm, x).value, Extract(pats, manifest, norm, y).value;
            var l, m := LevelOf(pats, f), LevelOf(pats, g);
            && Rank(l) <= Rank(m)
            && (forall a :: a in DepthOf(l, f, true).mandatory ==> a in DepthOf(m, g, true).mandatory)
            && (ObligationsOf(l, f, d).counterrun ==> ObligationsOf(m, g, e).counterrun)
            && (ObligationsOf(l, f, d).slicing ==> ObligationsOf(m, g, e).slicing)
  {
    var f, g := Extract(pats, manifest, norm, x).value, Extract(pats, manifest, norm, y).value;
    ExtractGrows(pats, manifest, norm, x, y);
    LevelGrows(pats, f, g);
    DepthGrows(pats, f, g);
    ObligationsGrow(pats, f, g, d, e);
  }

  /** The resource floor is not monotone. It drops exactly when slicing turns from an obligation beside
      the depth, which costs two sandboxes, into an action of the depth, which costs none, and the
      smaller change is not a low-risk one without a counterrun. */
  lemma FloorDropsIff(pats: Patterns, f: Features, g: Features, d: Demands, e: Demands)
    requires Below(f, g) && DemandsGrow(d, e)
    ensures var l, m := LevelOf(pats, f), LevelOf(pats, g);
            Floor(l, f, d) > Floor(m, g, e)
            <==> && Slicing in DepthOf(m, g, true).mandatory
                 && WantsSlicing(l, f, d) && Slicing !in DepthOf(l, f, true).mandatory
                 && !(l == Low && !WantsCounterrun(l, f, d))
  {
    LevelGrows(pats, f, g);
    DepthGrows(pats, f, g);
    ObligationsGrow(pats, f, g, d, e);
  }

  /** Medium risk with four hunks needs five sandboxes; the same change over ten files needs four. */
  lemma FloorCanDrop(pats: Patterns, f: Features, g: Features, d: Demands)
    requires Below(f, g) && f.change == BugFix && d.hunks == 4
    requires LevelOf(pats, f) == Medium && g.files >= 10
    ensures Floor(LevelOf(pats, f), f, d) == 5 && Floor(LevelOf(pats, g), g, d) == 4
  {
  }
}
