/**
 * The "I See Food" screen: its display state, the camera button, and the
 * handling of one classification run, which turns the top result of an
 * image classifier into a label and a background colour.
 *
 * The classifier itself (Core ML, Vision) is abstracted: a run is described
 * by how far it got (`Pipeline`) and, when it completed, by what it returned
 * (`Results`), a ranked sequence of observations of which only the
 * identifiers matter here.
 */
module ISeeFood {
  import opened Wrappers
  import opened Text

  /** The background colours the screen uses. */
  datatype Color = Blue | Green | Red

  /** An image chosen in the picker; its pixels play no part in this model. */
  datatype Image = Image(handle: nat)

  /** One classification observation, ranked by the classifier; confidences are left out. */
  datatype Observation = Observation(identifier: string)

  /** What a completed request hands back: classification observations, or something else. */
  datatype Results = NotClassifications | Classifications(observations: seq<Observation>)

  /** How a classification run ends. */
  datatype Pipeline =
    | ConversionFailed          // the picked image could not be turned into a Core Image image
    | ModelLoadFailed           // the MobileNetV2 model could not be loaded
    | PerformThrew              // the request handler threw instead of completing
    | Completed(results: Results)

  /** The screen's whole state: label text, background colour, chosen image, picker shown. */
  datatype DisplayState = DisplayState(
    classificationLabel: string, navBarColor: Color, inputImage: Option<Image>, showImagePicker: bool)

  /** A label together with the colour shown behind it. */
  datatype Banner = Banner(caption: string, color: Color)

  const INITIAL_LABEL: string := "Tap camera to select image"
  const HOTDOG_LABEL: string := "Hotdog!"
  const HOTDOG_TOKEN: string := "hotdog"

  function BannerOf(s: DisplayState): Banner {
    Banner(s.classificationLabel, s.navBarColor)
  }

  /** The screen as it first appears. */
  function Initial(): (s: DisplayState)
    ensures s.classificationLabel == INITIAL_LABEL && s.navBarColor == Blue
    ensures s.inputImage == None && !s.showImagePicker
  {
    DisplayState(INITIAL_LABEL, Blue, None, false)
  }

  /**
   * The one business rule: an identifier containing "hotdog" (case-sensitive,
   * anywhere in it) is shown as "Hotdog!" on green; any other identifier is
   * shown verbatim on red.
   */
  function Verdict(identifier: string): (b: Banner)
    ensures b.color != Blue
    ensures b.color == Green <==> Contains(identifier, HOTDOG_TOKEN)
    ensures b.color == Green ==> b.caption == HOTDOG_LABEL
    ensures b.color == Red ==> b.caption == identifier
  {
    if Contains(identifier, HOTDOG_TOKEN) then Banner(HOTDOG_LABEL, Green)
    else Banner(identifier, Red)
  }

  /** The identifier of the first observation, if the results are a non-empty list of classifications. */
  function TopIdentifier(r: Results): (top: Option<string>)
    ensures top.Some? <==> r.Classifications? && |r.observations| > 0
    ensures top.Some? ==> top.value == r.observations[0].identifier
  {
    match r
    case NotClassifications => None
    case Classifications(obs) => if |obs| == 0 then None else Some(obs[0].identifier)
  }

  /** The identifier a run delivers to the main queue; every failure delivers nothing. */
  function Delivered(run: Pipeline): (top: Option<string>)
    ensures top.Some? <==> run.Completed? && TopIdentifier(run.results).Some?
    ensures run.Completed? ==> top == TopIdentifier(run.results)
  {
    match run
    case ConversionFailed => None
    case ModelLoadFailed => None
    case PerformThrew => None
    case Completed(results) => TopIdentifier(results)
  }

  /**
   * The state after the main queue has handled what a run delivered: nothing
   * changes when nothing was delivered; otherwise the banner becomes the
   * verdict on the identifier and the image and picker flag are kept.
   */
  function Apply(s: DisplayState, top: Option<string>): (t: DisplayState)
    ensures t.inputImage == s.inputImage && t.showImagePicker == s.showImagePicker
    ensures top.None? ==> t == s
    ensures top.Some? ==> BannerOf(t) == Verdict(top.value)
  {
    match top
    case None => s
    case Some(id) => var b := Verdict(id); s.(classificationLabel := b.caption, navBarColor := b.color)
  }

  /** A banner the screen can show: the initial prompt on blue, "Hotdog!" on green, or a non-hotdog identifier on red. */
  predicate Consistent(b: Banner)
    ensures Consistent(b) ==> !Contains(b.caption, HOTDOG_TOKEN)
  {
    InitialLabelHasNoHotdog();
    WithoutLowerHNoHotdog(HOTDOG_LABEL);
    match b.color
    case Blue => b.caption == INITIAL_LABEL
    case Green => b.caption == HOTDOG_LABEL
    case Red => !Contains(b.caption, HOTDOG_TOKEN)
  }

  /** A string without a lower-case 'h' cannot contain "hotdog". */
  lemma WithoutLowerHNoHotdog(s: string)
    requires 'h' !in s
    ensures !Contains(s, HOTDOG_TOKEN)
  {
    forall i | 0 <= i <= |s| ensures !(HOTDOG_TOKEN <= s[i..]) {
      if i < |s| {
        assert s[i..][0] == s[i];
        assert s[i] in s;
      }
    }
  }

  /** The initial prompt does not mention "hotdog": it has no 'h' at all. */
  lemma InitialLabelHasNoHotdog()
    ensures !Contains(INITIAL_LABEL, HOTDOG_TOKEN)
  {
    WithoutLowerHNoHotdog(INITIAL_LABEL);
  }

  /** The effect of one classification run on the state. */
  function Classify(s: DisplayState, run: Pipeline): (t: DisplayState)
    ensures t.inputImage == s.inputImage && t.showImagePicker == s.showImagePicker
    ensures Delivered(run).None? ==> t == s
    ensures Delivered(run).Some? ==> BannerOf(t) == Verdict(Delivered(run).value)
  {
    Apply(s, Delivered(run))
  }

  /** The state after tapping the camera button. */
  function TapCamera(s: DisplayState): (t: DisplayState)
    ensures t.showImagePicker
    ensures t.(showImagePicker := s.showImagePicker) == s
  {
    s.(showImagePicker := true)
  }

  // ---------------------------------------------------------------------
  // Properties of the model

  /** A top identifier containing "hotdog" gives exactly "Hotdog!" on green. */
  lemma HotdogShownAsHotdog(s: DisplayState, id: string)
    requires Contains(id, HOTDOG_TOKEN)
    ensures Apply(s, Some(id)) == s.(classificationLabel := HOTDOG_LABEL, navBarColor := Green)
  {
  }

  /** Any other top identifier is shown verbatim on red. */
  lemma OtherShownVerbatim(s: DisplayState, id: string)
    requires !Contains(id, HOTDOG_TOKEN)
    ensures Apply(s, Some(id)) == s.(classificationLabel := id, navBarColor := Red)
  {
  }

  /**
   * Label and colour change together: after any run the banner is either
   * the old one, untouched, or the verdict on some identifier, never a mix.
   */
  lemma BannerReplacedAsAWhole(s: DisplayState, run: Pipeline)
    ensures BannerOf(Classify(s, run)) == BannerOf(s)
         || BannerOf(Classify(s, run)) == Verdict(Delivered(run).value)
  {
  }

  /** Only the first observation is read: runs whose first identifiers agree give the same state. */
  lemma OnlyFirstObservationRead(s: DisplayState, a: seq<Observation>, b: seq<Observation>)
    requires |a| > 0 && |b| > 0 && a[0].identifier == b[0].identifier
    ensures Classify(s, Completed(Classifications(a))) == Classify(s, Completed(Classifications(b)))
  {
  }

  /** Every way a run can fail, including empty or non-classification results, leaves the state as it was. */
  lemma FailuresLeaveStateUnchanged(s: DisplayState, r: Results)
    requires !(r.Classifications? && |r.observations| > 0)
    ensures Classify(s, ConversionFailed) == s
    ensures Classify(s, ModelLoadFailed) == s
    ensures Classify(s, PerformThrew) == s
    ensures Classify(s, Completed(r)) == s
  {
  }

  /** The camera button shows the picker and changes nothing else. */
  lemma TapCameraOnlyShowsPicker(s: DisplayState)
    ensures TapCamera(s).showImagePicker
    ensures TapCamera(s).(showImagePicker := s.showImagePicker) == s
  {
  }

  /** The initial banner is consistent, and every action keeps the banner consistent. */
  lemma ConsistencyPreserved(s: DisplayState, run: Pipeline)
    ensures Consistent(BannerOf(Initial()))
    ensures Consistent(BannerOf(s)) ==> Consistent(BannerOf(Classify(s, run)))
    ensures Consistent(BannerOf(s)) ==> Consistent(BannerOf(TapCamera(s)))
  {
  }

  /** MobileNetV2's own label for the class is recognised: "hotdog, hot dog, red hot" reads as "Hotdog!". */
  lemma MobileNetHotdogLabel(s: DisplayState)
    ensures Classify(s, Completed(Classifications([Observation("hotdog, hot dog, red hot")])))
         == s.(classificationLabel := HOTDOG_LABEL, navBarColor := Green)
  {
    assert HOTDOG_TOKEN <= "hotdog, hot dog, red hot"[0..];
  }

  /** A "pizza" result is shown as "pizza" on red. */
  lemma PizzaShownVerbatim(s: DisplayState)
    ensures Classify(s, Completed(Classifications([Observation("pizza")]))) == s.(classificationLabel := "pizza", navBarColor := Red)
  {
  }

  /** The match is case-sensitive: "Hotdog" is not a hotdog. */
  lemma CaseSensitiveMatch(s: DisplayState)
    ensures Classify(s, Completed(Classifications([Observation("Hotdog")]))) == s.(classificationLabel := "Hotdog", navBarColor := Red)
  {
    WithoutLowerHNoHotdog("Hotdog");
  }

  // ---------------------------------------------------------------------
  // The view, whose @State fields are updated in place

  class ISeeFoodView {
    var showImagePicker: bool
    var inputImage: Option<Image>
    var classificationLabel: string
    var navBarColor: Color

    /** The view's fields, read as one value. */
    function State(): DisplayState
      reads this
    {
      DisplayState(classificationLabel, navBarColor, inputImage, showImagePicker)
    }

    /** The banner on screen is one the screen can show. */
    ghost predicate Valid()
      reads this
    {
      Consistent(BannerOf(State()))
    }

    constructor ()
      ensures Valid()
      ensures State() == Initial()
    {
      showImagePicker := false;
      inputImage := None;
      classificationLabel := INITIAL_LABEL;
      navBarColor := Blue;
    }

    /** The camera button's action. */
    method TapCameraButton()
      requires Valid()
      modifies this`showImagePicker
      ensures Valid()
      ensures State() == TapCamera(old(State()))
    {
      showImagePicker := true;
    }

    /**
     * `classifyImage` followed by the main-queue update its completion
     * handler schedules: every failure returns without touching the view;
     * a delivered identifier sets label and colour together.
     */
    method ClassifyImage(run: Pipeline)
      requires Valid()
      modifies this`classificationLabel, this`navBarColor
      ensures Valid()
      ensures State() == Classify(old(State()), run)
    {
      if run.ConversionFailed? {
        return;
      }
      if run.ModelLoadFailed? {
        return;
      }
      if run.PerformThrew? {
        return;
      }
      var results := run.results;
      if !results.Classifications? || |results.observations| == 0 {
        return;
      }
      var topResult := results.observations[0];
      if Contains(topResult.identifier, HOTDOG_TOKEN) {
        classificationLabel := HOTDOG_LABEL;
        navBarColor := Green;
      } else {
        classificationLabel := topResult.identifier;
        navBarColor := Red;
      }
    }
  }
}
