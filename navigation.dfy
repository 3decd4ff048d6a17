/**
 * The screen-navigation state machine of the application, as values: the three pieces of
 * component state, the events the handlers implement, the rule each event applies, and the
 * guarded choice of what to render.
 */
module Navigation {

  import opened Wrappers
  import opened Catalog
  import opened Analyzer

  datatype Screen = GetStartedScreen | HomeScreen | InstructionsScreen | CameraScreen | ResultsScreen

  /** The application's component state. */
  datatype Session = Session(
    currentScreen: Screen,
    selectedFoodItem: Option<FoodItem>,
    testResult: Option<TestResult>)

  /** What the application renders. */
  datatype View =
    | ShowGetStarted
    | ShowCatalog
    | ShowInstructions(item: FoodItem)
    | ShowCamera(item: FoodItem)
    | ShowResults(item: FoodItem, result: TestResult)

  /** One call of a handler: the six named handlers and the two inline back actions. */
  datatype Event =
    | FoodItemSelect(foodItem: FoodItem)
    | BackToHome
    | StartCamera
    | AnalysisComplete(result: TestResult)
    | RetakeTest
    | GetStarted
    | CameraBack
    | ResultsBack

  const Initial: Session := Session(GetStartedScreen, None, None)

  /**
   * The update each handler applies to the state. Only selection and Home change the
   * item; only completion, Retake and Home change the result; no event returns to the
   * welcome screen.
   */
  function Step(s: Session, e: Event): (t: Session)
    ensures t.currentScreen != GetStartedScreen
    ensures t.currentScreen == HomeScreen <==> e == GetStarted || e == BackToHome
    ensures t.currentScreen == InstructionsScreen <==> e.FoodItemSelect? || e == CameraBack
    ensures t.currentScreen == CameraScreen <==>
              e == StartCamera || e == RetakeTest || e == ResultsBack
    ensures t.currentScreen == ResultsScreen <==> e.AnalysisComplete?
    ensures e.FoodItemSelect? ==> t.selectedFoodItem == Some(e.foodItem)
    ensures e == BackToHome ==> t.selectedFoodItem == None && t.testResult == None
    ensures !e.FoodItemSelect? && e != BackToHome ==> t.selectedFoodItem == s.selectedFoodItem
    ensures e.AnalysisComplete? ==> t.testResult == Some(e.result)
    ensures e == RetakeTest ==> t.testResult == None
    ensures !e.AnalysisComplete? && e != RetakeTest && e != BackToHome ==>
              t.testResult == s.testResult
  {
    match e
    case FoodItemSelect(item) => s.(currentScreen := InstructionsScreen, selectedFoodItem := Some(item))
    case BackToHome => Session(HomeScreen, None, None)
    case StartCamera => s.(currentScreen := CameraScreen)
    case AnalysisComplete(r) => s.(currentScreen := ResultsScreen, testResult := Some(r))
    case RetakeTest => s.(currentScreen := CameraScreen, testResult := None)
    case GetStarted => s.(currentScreen := HomeScreen)
    case CameraBack => s.(currentScreen := InstructionsScreen)
    case ResultsBack => s.(currentScreen := CameraScreen)
  }

  /**
   * The render selection. A screen that needs an item (and, for results, a result) is shown
   * only when the state holds them; every other state shows the catalog.
   */
  function Render(s: Session): (v: View)
    ensures v == ShowGetStarted <==> s.currentScreen == GetStartedScreen
    ensures v.ShowInstructions? <==>
              s.currentScreen == InstructionsScreen && s.selectedFoodItem.Some?
    ensures v.ShowCamera? <==> s.currentScreen == CameraScreen && s.selectedFoodItem.Some?
    ensures v.ShowResults? <==>
              s.currentScreen == ResultsScreen && s.selectedFoodItem.Some? && s.testResult.Some?
    ensures (v.ShowInstructions? || v.ShowCamera? || v.ShowResults?) ==>
              s.selectedFoodItem == Some(v.item)
    ensures v.ShowResults? ==> s.testResult == Some(v.result)
  {
    match (s.currentScreen, s.selectedFoodItem, s.testResult)
    case (GetStartedScreen, _, _) => ShowGetStarted
    case (InstructionsScreen, Some(item), _) => ShowInstructions(item)
    case (CameraScreen, Some(item), _) => ShowCamera(item)
    case (ResultsScreen, Some(item), Some(r)) => ShowResults(item, r)
    case _ => ShowCatalog
  }

  /**
   * The event is bound to a control of the view currently rendered: the welcome button,
   * a catalog card, the instructions screen's Back and Start, the capture screen's Back
   * and its analysis callback, the results screen's Back, Retake and Home.
   */
  predicate Wired(s: Session, e: Event): (b: bool)
    ensures b && e == GetStarted ==> Render(s) == ShowGetStarted
    ensures b && e.FoodItemSelect? ==> Render(s) == ShowCatalog && e.foodItem in FoodItems
    ensures b && e == StartCamera ==> Render(s).ShowInstructions?
    ensures b && e == BackToHome ==> Render(s).ShowInstructions? || Render(s).ShowResults?
    ensures b && (e == CameraBack || e.AnalysisComplete?) ==> Render(s).ShowCamera?
    ensures b && (e == ResultsBack || e == RetakeTest) ==> Render(s).ShowResults?
    ensures Render(s) == ShowGetStarted && e == GetStarted ==> b
    ensures Render(s) == ShowCatalog && e.FoodItemSelect? && e.foodItem in FoodItems ==> b
    ensures Render(s).ShowInstructions? && (e == BackToHome || e == StartCamera) ==> b
    ensures Render(s).ShowCamera? && (e == CameraBack || e.AnalysisComplete?) ==> b
    ensures Render(s).ShowResults? && (e == ResultsBack || e == RetakeTest || e == BackToHome) ==> b
  {
    match Render(s)
    case ShowGetStarted => e == GetStarted
    case ShowCatalog => e.FoodItemSelect? && e.foodItem in FoodItems
    case ShowInstructions(_) => e == BackToHome || e == StartCamera
    case ShowCamera(_) => e == CameraBack || e.AnalysisComplete?
    case ShowResults(_, _) => e == ResultsBack || e == RetakeTest || e == BackToHome
  }

  /** The state after a sequence of events. */
  function Run(s: Session, es: seq<Event>): (t: Session)
    decreases |es|
  {
    if es == [] then s else Run(Step(s, es[0]), es[1..])
  }

  /** Every event of the sequence is wired in the state it arrives in. */
  predicate AllWired(s: Session, es: seq<Event>)
    decreases |es|
  {
    es == [] || (Wired(s, es[0]) && AllWired(Step(s, es[0]), es[1..]))
  }

  /**
   * Every event is wired, except that an analysis completion may arrive in any state: the
   * capture screen's timer is never cancelled, so its callback can run after navigation.
   */
  predicate AllWiredOrCompletion(s: Session, es: seq<Event>)
    decreases |es|
  {
    es == [] ||
    ((Wired(s, es[0]) || es[0].AnalysisComplete?) && AllWiredOrCompletion(Step(s, es[0]), es[1..]))
  }

  /** A state the render guards never need to reject. */
  predicate Consistent(s: Session) {
    && (s.currentScreen in {InstructionsScreen, CameraScreen, ResultsScreen} ==> s.selectedFoodItem.Some?)
    && (s.currentScreen == ResultsScreen ==> s.testResult.Some?)
    && (s.selectedFoodItem.Some? ==> s.selectedFoodItem.value in FoodItems)
  }

  /** What still holds when analysis completions may arrive at any time. */
  predicate ConsistentExceptResults(s: Session) {
    && (s.currentScreen in {InstructionsScreen, CameraScreen} ==> s.selectedFoodItem.Some?)
    && (s.currentScreen == ResultsScreen ==> s.testResult.Some?)
    && (s.selectedFoodItem.Some? ==> s.selectedFoodItem.value in FoodItems)
  }

  /** In a consistent state the view is the current screen's own. */
  lemma ConsistentRendersScreen(s: Session)
    requires Consistent(s)
    ensures s.currentScreen == HomeScreen <==> Render(s) == ShowCatalog
    ensures s.currentScreen == InstructionsScreen ==> Render(s) == ShowInstructions(s.selectedFoodItem.value)
    ensures s.currentScreen == CameraScreen ==> Render(s) == ShowCamera(s.selectedFoodItem.value)
    ensures s.currentScreen == ResultsScreen ==>
              Render(s) == ShowResults(s.selectedFoodItem.value, s.testResult.value)
  {
  }

  /** Every view offers at least one event, so no state is a dead end. */
  lemma EveryViewHasControl(s: Session)
    ensures exists e :: Wired(s, e)
  {
    match Render(s)
    case ShowGetStarted => assert Wired(s, GetStarted);
    case ShowCatalog => assert Wired(s, FoodItemSelect(FoodItems[0]));
    case ShowInstructions(_) => assert Wired(s, StartCamera);
    case ShowCamera(_) => assert Wired(s, CameraBack);
    case ShowResults(_, _) => assert Wired(s, RetakeTest);
  }

  /** A wired event keeps the state consistent. */
  lemma WiredStepConsistent(s: Session, e: Event)
    requires Consistent(s) && Wired(s, e)
    ensures Consistent(Step(s, e))
  {
  }

  /** Consistency holds after any sequence of wired events. */
  lemma {:induction false} RunConsistent(s: Session, es: seq<Event>)
    requires Consistent(s) && AllWired(s, es)
    ensures Consistent(Run(s, es))
    decreases |es|
  {
    if es != [] {
      WiredStepConsistent(s, es[0]);
      RunConsistent(Step(s, es[0]), es[1..]);
    }
  }

  /**
   * Every state reachable from the initial one through wired events has an item on the
   * instructions, camera and results screens, a result on the results screen, and only
   * catalog items selected.
   */
  lemma ReachableConsistent(es: seq<Event>)
    requires AllWired(Initial, es)
    ensures Consistent(Run(Initial, es))
  {
    RunConsistent(Initial, es);
  }

  /** A reachable selected item is a catalog item, so its analysis never uses the fallback. */
  lemma ReachableAnalysisUsesOwnEntry(es: seq<Event>, draw: string -> Draws)
    requires AllWired(Initial, es)
    requires Run(Initial, es).selectedFoodItem.Some?
    ensures var id := Run(Initial, es).selectedFoodItem.value.id;
      id in Rows && Analyze(id, draw) == Entry(Rows[id], draw(id))
  {
    ReachableConsistent(es);
    CatalogNeverFallsBack(Run(Initial, es).selectedFoodItem.value, draw);
  }

  /** A wired event or a completion keeps the weaker invariant. */
  lemma CompletionStepConsistentExceptResults(s: Session, e: Event)
    requires ConsistentExceptResults(s) && (Wired(s, e) || e.AnalysisComplete?)
    ensures ConsistentExceptResults(Step(s, e))
  {
  }

  /** With completions at any time, the weaker invariant holds after any sequence. */
  lemma {:induction false} RunConsistentExceptResults(s: Session, es: seq<Event>)
    requires ConsistentExceptResults(s) && AllWiredOrCompletion(s, es)
    ensures ConsistentExceptResults(Run(s, es))
    decreases |es|
  {
    if es != [] {
      CompletionStepConsistentExceptResults(s, es[0]);
      RunConsistentExceptResults(Step(s, es[0]), es[1..]);
    }
  }

  /**
   * And nothing stronger about the results screen: a completion that arrives after the
   * user went back to the catalog puts the state on the results screen with no item. The
   * render guard then shows the catalog.
   */
  lemma LateCompletionReachesResultsWithoutItem(r: TestResult)
    ensures var es := [GetStarted, FoodItemSelect(FoodItem("turmeric")), StartCamera,
                       CameraBack, BackToHome, AnalysisComplete(r)];
      var s := Run(Initial, es);
      AllWiredOrCompletion(Initial, es) && !AllWired(Initial, es) &&
      s == Session(ResultsScreen, None, Some(r)) && !Consistent(s) && Render(s) == ShowCatalog
  {
    var t := FoodItem("turmeric");
    var es := [GetStarted, FoodItemSelect(t), StartCamera, CameraBack, BackToHome, AnalysisComplete(r)];
    var s1 := Session(HomeScreen, None, None);
    var s2 := Session(InstructionsScreen, Some(t), None);
    var s3 := Session(CameraScreen, Some(t), None);
    var s4 := Session(InstructionsScreen, Some(t), None);
    var s5 := Session(HomeScreen, None, None);
    var s6 := Session(ResultsScreen, None, Some(r));
    assert t in FoodItems;
    assert es[1..] == [FoodItemSelect(t), StartCamera, CameraBack, BackToHome, AnalysisComplete(r)];
    assert es[2..] == [StartCamera, CameraBack, BackToHome, AnalysisComplete(r)];
    assert es[3..] == [CameraBack, BackToHome, AnalysisComplete(r)];
    assert es[4..] == [BackToHome, AnalysisComplete(r)];
    assert es[5..] == [AnalysisComplete(r)];
    assert AllWiredOrCompletion(s5, es[5..]);
    assert !Wired(s5, AnalysisComplete(r));
    assert AllWiredOrCompletion(s4, es[4..]);
    assert AllWiredOrCompletion(s3, es[3..]);
    assert AllWiredOrCompletion(s2, es[2..]);
    assert AllWiredOrCompletion(s1, es[1..]);
    assert !AllWired(s5, es[5..]);
    assert !AllWired(s4, es[4..]);
    assert !AllWired(s3, es[3..]);
    assert !AllWired(s2, es[2..]);
    assert !AllWired(s1, es[1..]);
    assert Run(s5, es[5..]) == s6;
    assert Run(s4, es[4..]) == s6;
    assert Run(s3, es[3..]) == s6;
    assert Run(s2, es[2..]) == s6;
    assert Run(s1, es[1..]) == s6;
  }

  /** Going back from the results screen keeps the result; retaking clears it. */
  lemma ResultsBackKeepsResult(s: Session)
    ensures Step(s, ResultsBack).testResult == s.testResult
    ensures Step(s, RetakeTest).testResult == None
    ensures Step(s, BackToHome) == Session(HomeScreen, None, None)
  {
  }

  /** The walk-through: welcome, pick turmeric, capture, see the result, return home. */
  lemma Walkthrough(r: TestResult)
    ensures var turmeric := FoodItem("turmeric");
      var es := [GetStarted, FoodItemSelect(turmeric), StartCamera, AnalysisComplete(r), BackToHome];
      AllWired(Initial, es) &&
      Render(Run(Initial, es[..4])) == ShowResults(turmeric, r) &&
      Run(Initial, es) == Session(HomeScreen, None, None)
  {
    var t := FoodItem("turmeric");
    var es := [GetStarted, FoodItemSelect(t), StartCamera, AnalysisComplete(r), BackToHome];
    var s1 := Session(HomeScreen, None, None);
    var s2 := Session(InstructionsScreen, Some(t), None);
    var s3 := Session(CameraScreen, Some(t), None);
    var s4 := Session(ResultsScreen, Some(t), Some(r));
    var home := Session(HomeScreen, None, None);
    assert t in FoodItems;
    assert es[1..] == [FoodItemSelect(t), StartCamera, AnalysisComplete(r), BackToHome];
    assert es[2..] == [StartCamera, AnalysisComplete(r), BackToHome];
    assert es[3..] == [AnalysisComplete(r), BackToHome];
    assert es[4..] == [BackToHome];
    var last := es[4..];
    assert last[0] == BackToHome && last[1..] == [];
    assert Step(s4, BackToHome) == home && Run(home, []) == home;
    assert Run(s4, last) == Run(Step(s4, last[0]), last[1..]);
    assert AllWired(s4, last) && Run(s4, last) == home;
    assert AllWired(s3, es[3..]) && Run(s3, es[3..]) == home;
    assert AllWired(s2, es[2..]) && Run(s2, es[2..]) == home;
    assert AllWired(s1, es[1..]) && Run(s1, es[1..]) == home;
    var pre := es[..4];
    assert pre[1..] == es[1..4] && pre[1..][1..] == es[2..4] && es[2..4][1..] == es[3..4];
    assert es[3..4] == [AnalysisComplete(r)];
    assert Run(s3, es[3..4]) == s4;
    assert Run(s2, es[2..4]) == s4;
    assert Run(s1, es[1..4]) == s4;
  }
}
