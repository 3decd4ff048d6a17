/**
 * The capture screen's own state: the photo it holds, whether an analysis is running,
 * and the analysis timers it has started and that have not fired yet.
 *
 * Each method except `TimerFires` is the action of one control, and a control is
 * rendered only in some states: the file input only while no photo is held; the Analyze
 * and Retake Photo buttons only while a photo is held and no analysis is running. Such a
 * method's `requires` is the condition under which its control exists. `TimerFires` is
 * the timer's callback and requires only a pending timer.
 */
module Capture {

  import opened Wrappers
  import opened Catalog
  import opened Analyzer

  /** The part of the card below the title, chosen by the two flags. */
  datatype Panel = UploadPrompt | AnalyzingProgress | AnalyzeOrRetake

  class CameraInterface {
    const foodItem: FoodItem
    var isAnalyzing: bool
    /** The data URL of the captured photo. */
    var capturedImage: Option<string>
    /** Timers started by Analyze whose callback has not run. */
    var pendingTimers: nat

    /**
     * At most one timer is pending, the busy flag is set exactly while it is, and a photo
     * is held while analyzing: so the progress panel shows exactly while a timer is pending.
     */
    ghost predicate Valid(): (b: bool)
      reads this
      ensures b ==> (Shown() == AnalyzingProgress <==> pendingTimers == 1)
      ensures b ==> (Shown() == AnalyzeOrRetake ==> pendingTimers == 0)
    {
      && pendingTimers <= 1
      && (isAnalyzing <==> pendingTimers == 1)
      && (isAnalyzing ==> capturedImage.Some?)
    }

    constructor (foodItem: FoodItem)
      ensures Valid()
      ensures this.foodItem == foodItem
      ensures !isAnalyzing && capturedImage == None && pendingTimers == 0
    {
      this.foodItem := foodItem;
      isAnalyzing := false;
      capturedImage := None;
      pendingTimers := 0;
    }

    /** What the card shows; the Analyze action is offered only in AnalyzeOrRetake. */
    function Shown(): (p: Panel)
      reads this
      ensures p == UploadPrompt <==> capturedImage == None
      ensures p == AnalyzingProgress <==> capturedImage.Some? && isAnalyzing
      ensures p == AnalyzeOrRetake <==> capturedImage.Some? && !isAnalyzing
    {
      if capturedImage == None then UploadPrompt
      else if isAnalyzing then AnalyzingProgress
      else AnalyzeOrRetake
    }

    /**
     * The file input's change handler. `file` is the loaded data URL of the first chosen
     * file, or None when no file was chosen; the photo is replaced only in the first case.
     */
    method HandleImageCapture(file: Option<string>)
      requires Valid() && Shown() == UploadPrompt
      modifies this`capturedImage
      ensures Valid()
      ensures capturedImage == file
      ensures file.Some? <==> Shown() == AnalyzeOrRetake
    {
      if file.Some? {
        capturedImage := file;
      }
    }

    /** The Retake Photo button: drop the photo. */
    method RetakePhoto()
      requires Valid() && Shown() == AnalyzeOrRetake
      modifies this`capturedImage
      ensures Valid()
      ensures capturedImage == None && Shown() == UploadPrompt
    {
      capturedImage := None;
    }

    /** The Analyze button: mark the screen busy and start the timer. */
    method AnalyzeImage()
      requires Valid() && Shown() == AnalyzeOrRetake
      modifies this`isAnalyzing, this`pendingTimers
      ensures Valid()
      ensures isAnalyzing && pendingTimers == old(pendingTimers) + 1 == 1
      ensures capturedImage == old(capturedImage) && Shown() == AnalyzingProgress
    {
      isAnalyzing := true;
      pendingTimers := pendingTimers + 1;
    }

    /**
     * The timer's callback: build the table from `draw`, clear the busy flag and return
     * the entry for this screen's item, which the caller hands to the analysis-complete
     * handler once.
     */
    method TimerFires(draw: string -> Draws) returns (result: TestResult)
      requires Valid() && pendingTimers > 0
      modifies this`isAnalyzing, this`pendingTimers
      ensures Valid()
      ensures result == Analyze(foodItem.id, draw)
      ensures !isAnalyzing && pendingTimers == old(pendingTimers) - 1 == 0
      ensures capturedImage == old(capturedImage) && Shown() == AnalyzeOrRetake
    {
      result := Analyze(foodItem.id, draw);
      isAnalyzing := false;
      pendingTimers := pendingTimers - 1;
    }
  }
}
