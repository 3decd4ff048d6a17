/**
 * The application component: its three pieces of state as fields and one method per
 * handler. Each method says what every field holds afterwards and that the new state is
 * the one the navigation rules give for its event.
 */
module Application {

  import opened Wrappers
  import opened Catalog
  import opened Analyzer
  import opened Navigation
  import Capture

  class App {
    var currentScreen: Screen
    var selectedFoodItem: Option<FoodItem>
    var testResult: Option<TestResult>

    /** The state as a value. */
    function Snapshot(): (s: Session)
      reads this
    {
      Session(currentScreen, selectedFoodItem, testResult)
    }

    constructor ()
      ensures currentScreen == GetStartedScreen && selectedFoodItem == None && testResult == None
      ensures Snapshot() == Initial
    {
      currentScreen := GetStartedScreen;
      selectedFoodItem := None;
      testResult := None;
    }

    method HandleFoodItemSelect(foodItem: FoodItem)
      modifies this
      ensures currentScreen == InstructionsScreen && selectedFoodItem == Some(foodItem)
      ensures testResult == old(testResult)
      ensures Snapshot() == Step(old(Snapshot()), FoodItemSelect(foodItem))
    {
      selectedFoodItem := Some(foodItem);
      currentScreen := InstructionsScreen;
    }

    method HandleBackToHome()
      modifies this
      ensures currentScreen == HomeScreen && selectedFoodItem == None && testResult == None
      ensures Snapshot() == Step(old(Snapshot()), BackToHome)
    {
      currentScreen := HomeScreen;
      selectedFoodItem := None;
      testResult := None;
    }

    method HandleStartCamera()
      modifies this
      ensures currentScreen == CameraScreen
      ensures selectedFoodItem == old(selectedFoodItem) && testResult == old(testResult)
      ensures Snapshot() == Step(old(Snapshot()), StartCamera)
    {
      currentScreen := CameraScreen;
    }

    method HandleAnalysisComplete(result: TestResult)
      modifies this
      ensures currentScreen == ResultsScreen && testResult == Some(result)
      ensures selectedFoodItem == old(selectedFoodItem)
      ensures Snapshot() == Step(old(Snapshot()), AnalysisComplete(result))
    {
      testResult := Some(result);
      currentScreen := ResultsScreen;
    }

    method HandleRetakeTest()
      modifies this
      ensures currentScreen == CameraScreen && testResult == None
      ensures selectedFoodItem == old(selectedFoodItem)
      ensures Snapshot() == Step(old(Snapshot()), RetakeTest)
    {
      currentScreen := CameraScreen;
      testResult := None;
    }

    method HandleGetStarted()
      modifies this
      ensures currentScreen == HomeScreen
      ensures selectedFoodItem == old(selectedFoodItem) && testResult == old(testResult)
      ensures Snapshot() == Step(old(Snapshot()), GetStarted)
    {
      currentScreen := HomeScreen;
    }

    /** The capture screen's inline back action. */
    method CameraOnBack()
      modifies this
      ensures currentScreen == InstructionsScreen
      ensures selectedFoodItem == old(selectedFoodItem) && testResult == old(testResult)
      ensures Snapshot() == Step(old(Snapshot()), CameraBack)
    {
      currentScreen := InstructionsScreen;
    }

    /** The results screen's inline back action; the result is kept. */
    method ResultsOnBack()
      modifies this
      ensures currentScreen == CameraScreen
      ensures selectedFoodItem == old(selectedFoodItem) && testResult == old(testResult)
      ensures Snapshot() == Step(old(Snapshot()), ResultsBack)
    {
      currentScreen := CameraScreen;
    }
  }

  /**
   * One session driven through both components: welcome, choose turmeric, capture a photo,
   * analyze, let the timer fire, see the result, go home.
   */
  method Walkthrough(photo: string, draw: string -> Draws) returns (shown: View, home: Session)
    ensures shown == ShowResults(FoodItem("turmeric"), Analyze("turmeric", draw))
    ensures home == Session(HomeScreen, None, None)
  {
    var app := new App();
    app.HandleGetStarted();
    app.HandleFoodItemSelect(FoodItems[0]);
    app.HandleStartCamera();
    var camera := new Capture.CameraInterface(app.selectedFoodItem.value);
    camera.HandleImageCapture(Some(photo));
    camera.AnalyzeImage();
    var result := camera.TimerFires(draw);
    app.HandleAnalysisComplete(result);
    shown := Render(app.Snapshot());
    app.HandleBackToHome();
    home := app.Snapshot();
  }

  /**
   * The analysis timer is not cancelled when the capture screen is left. Start an analysis
   * for turmeric, go back to the catalog, choose honey and open its capture screen: when
   * the turmeric timer fires, the results screen shows honey with turmeric's result, while
   * honey's capture screen never left its upload prompt.
   */
  method LateCompletion(photo: string, draw: string -> Draws) returns (shown: View, honeyPanel: Capture.Panel)
    ensures shown == ShowResults(FoodItem("honey"), Analyze("turmeric", draw))
    ensures honeyPanel == Capture.UploadPrompt
  {
    var turmeric, honey := FoodItems[0], FoodItems[1];
    assert turmeric == FoodItem("turmeric") && honey == FoodItem("honey");
    var app := new App();
    app.HandleGetStarted();
    app.HandleFoodItemSelect(turmeric);
    app.HandleStartCamera();
    var first := new Capture.CameraInterface(turmeric);
    first.HandleImageCapture(Some(photo));
    first.AnalyzeImage();
    app.CameraOnBack();
    app.HandleBackToHome();
    app.HandleFoodItemSelect(honey);
    app.HandleStartCamera();
    var second := new Capture.CameraInterface(honey);
    var result := first.TimerFires(draw);
    app.HandleAnalysisComplete(result);
    shown := Render(app.Snapshot());
    honeyPanel := second.Shown();
  }
}
