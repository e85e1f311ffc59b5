/** The page: which of the five modal dialogs are open, the feature shown in the feature
    dialog, the message of the success dialog, and the scroll progress that drives the
    3D scene. */
module Page {
  import opened Wrappers

  /** A feature card's content, as the feature dialog shows it. */
  datatype Feature = Feature(title: string, description: string, details: string, icon: string)

  const SuccessText: string := "We've received your message and will get back to you within 24 hours."
  const DefaultFeatureTitle: string := "Feature Details"

  /** Everything the page component keeps as state. */
  datatype PageState = PageState(
    demoModalOpen: bool,
    contactModalOpen: bool,
    storyModalOpen: bool,
    featureModalOpen: bool,
    successModalOpen: bool,
    selectedFeature: Option<Feature>,
    successMessage: string,
    scrollProgress: real)

  /** `selectedFeature?.title || 'Feature Details'`: the selected feature's title unless
      there is none or it is empty. */
  function FeatureModalTitle(selected: Option<Feature>): (title: string)
    ensures selected.Some? && selected.value.title != "" ==> title == selected.value.title
    ensures selected.None? || selected.value.title == "" ==> title == DefaultFeatureTitle
    ensures title != ""
  {
    if selected.Some? && selected.value.title != "" then selected.value.title else DefaultFeatureTitle
  }

  /** How far down the page is scrolled, as a fraction of the scrollable height
      `scrollHeight - innerHeight`: never above 1, and 0 when nothing can be scrolled.
      A negative scroll offset is passed through, not clamped. */
  function ScrollProgress(scrollY: real, scrollHeight: real, innerHeight: real): (p: real)
    ensures p <= 1.0
    ensures scrollHeight - innerHeight <= 0.0 ==> p == 0.0
    ensures scrollHeight - innerHeight > 0.0 && scrollY <= scrollHeight - innerHeight ==>
              p * (scrollHeight - innerHeight) == scrollY
    ensures scrollHeight - innerHeight > 0.0 && 0.0 <= scrollY ==> 0.0 <= p
    ensures scrollHeight - innerHeight > 0.0 && scrollY >= scrollHeight - innerHeight ==> p == 1.0
    ensures scrollHeight - innerHeight > 0.0 && scrollY < 0.0 ==> p < 0.0
  {
    var docHeight := scrollHeight - innerHeight;
    if docHeight > 0.0 then
      var ratio := scrollY / docHeight;
      RatioFacts(scrollY, docHeight);
      if ratio <= 1.0 then ratio else 1.0
    else
      0.0
  }

  lemma RatioFacts(a: real, d: real)
    requires d > 0.0
    ensures (a / d) * d == a
    ensures a < 0.0 ==> a / d < 0.0
    ensures 0.0 <= a ==> 0.0 <= a / d
    ensures a <= d ==> a / d <= 1.0
    ensures a >= d ==> a / d >= 1.0
  {
  }

  /** A scroll offset above the top of the page gives a negative progress. */
  lemma NoLowerClamp()
    ensures ScrollProgress(-10.0, 200.0, 100.0) == -0.1
  {
  }

  /** The page component's state and its event handlers. */
  class App {
    var demoModalOpen: bool
    var contactModalOpen: bool
    var storyModalOpen: bool
    var featureModalOpen: bool
    var successModalOpen: bool
    var selectedFeature: Option<Feature>
    var successMessage: string
    var scrollProgress: real

    ghost function State(): PageState
      reads this
    {
      PageState(demoModalOpen, contactModalOpen, storyModalOpen, featureModalOpen, successModalOpen,
                selectedFeature, successMessage, scrollProgress)
    }

    /** The feature dialog is only ever open with a feature selected, and the success
        message is either unset or the fixed confirmation. */
    ghost predicate Valid()
      reads this
    {
      && (featureModalOpen ==> selectedFeature.Some?)
      && (successMessage == "" || successMessage == SuccessText)
    }

    constructor ()
      ensures Valid()
      ensures State() == PageState(false, false, false, false, false, None, "", 0.0)
    {
      demoModalOpen, contactModalOpen, storyModalOpen := false, false, false;
      featureModalOpen, successModalOpen := false, false;
      selectedFeature, successMessage, scrollProgress := None, "", 0.0;
    }

    /** The navigation bar's "get started" and the contact section's "schedule a call"
        and "partnership inquiry" buttons. */
    method OpenContact()
      requires Valid()
      modifies this
      ensures Valid()
      ensures State() == old(State()).(contactModalOpen := true)
    {
      contactModalOpen := true;
    }

    method CloseContact()
      requires Valid()
      modifies this
      ensures Valid()
      ensures State() == old(State()).(contactModalOpen := false)
    {
      contactModalOpen := false;
    }

    /** The hero's "watch demo" button. */
    method OpenDemo()
      requires Valid()
      modifies this
      ensures Valid()
      ensures State() == old(State()).(demoModalOpen := true)
    {
      demoModalOpen := true;
    }

    method CloseDemo()
      requires Valid()
      modifies this
      ensures Valid()
      ensures State() == old(State()).(demoModalOpen := false)
    {
      demoModalOpen := false;
    }

    /** The about section's "our story" button. */
    method OpenStory()
      requires Valid()
      modifies this
      ensures Valid()
      ensures State() == old(State()).(storyModalOpen := true)
    {
      storyModalOpen := true;
    }

    method CloseStory()
      requires Valid()
      modifies this
      ensures Valid()
      ensures State() == old(State()).(storyModalOpen := false)
    {
      storyModalOpen := false;
    }

    /** A feature card's "learn more": select the feature and open its dialog. */
    method LearnMore(feature: Feature)
      requires Valid()
      modifies this
      ensures Valid()
      ensures State() == old(State()).(selectedFeature := Some(feature), featureModalOpen := true)
    {
      selectedFeature := Some(feature);
      featureModalOpen := true;
    }

    /** Closing the feature dialog keeps the selected feature. */
    method CloseFeature()
      requires Valid()
      modifies this
      ensures Valid()
      ensures State() == old(State()).(featureModalOpen := false)
    {
      featureModalOpen := false;
    }

    /** The feature dialog's button: leave the feature dialog for the contact form. */
    method FeatureToContact()
      requires Valid()
      modifies this
      ensures Valid()
      ensures State() == old(State()).(featureModalOpen := false, contactModalOpen := true)
    {
      featureModalOpen := false;
      contactModalOpen := true;
    }

    /** Submitting the contact form: close the form, set the confirmation, show it. */
    method SubmitContact()
      requires Valid()
      modifies this
      ensures Valid()
      ensures State() == old(State()).(contactModalOpen := false, successMessage := SuccessText,
                                       successModalOpen := true)
    {
      contactModalOpen := false;
      successMessage := SuccessText;
      successModalOpen := true;
    }

    /** The success dialog's close control and its "close" button. */
    method CloseSuccess()
      requires Valid()
      modifies this
      ensures Valid()
      ensures State() == old(State()).(successModalOpen := false)
    {
      successModalOpen := false;
    }

    /** The window's scroll handler. */
    method OnScroll(scrollY: real, scrollHeight: real, innerHeight: real)
      requires Valid()
      modifies this
      ensures Valid()
      ensures State() == old(State()).(scrollProgress := ScrollProgress(scrollY, scrollHeight, innerHeight))
    {
      var docHeight := scrollHeight - innerHeight;
      var progress := if docHeight > 0.0 then (if scrollY / docHeight <= 1.0 then scrollY / docHeight else 1.0) else 0.0;
      scrollProgress := progress;
    }

    /** The title the feature dialog shows. */
    function FeatureTitle(): (title: string)
      reads this
      ensures selectedFeature.Some? && selectedFeature.value.title != "" ==> title == selectedFeature.value.title
      ensures title != ""
    {
      FeatureModalTitle(selectedFeature)
    }
  }

  /** After "learn more" on a feature and closing its dialog, reopening the page's feature
      dialog shows the same feature: closing never loses the selection. */
  method LearnMoreThenClose(app: App, feature: Feature)
    requires app.Valid()
    modifies app
    ensures app.Valid()
    ensures !app.featureModalOpen && app.selectedFeature == Some(feature)
    ensures app.FeatureTitle() == FeatureModalTitle(Some(feature))
  {
    app.LearnMore(feature);
    app.CloseFeature();
  }
}

/** The page's hard-coded dialog texts agree with the English translation table. */
module PageText {
  import opened Page
  import opened Language

  /** The success dialog's confirmation is the English table's `successMessage`. */
  lemma EnglishSuccessText()
    ensures Translate(En, "successMessage") == SuccessText
  {
    SuccessEntry();
    SuccessNotRedefined();
    MergeKeepsLastDefinition(EnSections, 9, "successMessage");
  }

  lemma SuccessEntry()
    ensures "successMessage" in EnSections[9] && EnSections[9]["successMessage"] == SuccessText
  {
    assert EnSections[9] == EnSuccessModal;
  }

  lemma SuccessNotRedefined()
    ensures forall j :: 9 < j < |EnSections| ==> "successMessage" !in EnSections[j]
  {
    SuccessNotIn10();
    SuccessNotIn11();
    SuccessNotIn12();
    forall j | 9 < j < |EnSections|
      ensures "successMessage" !in EnSections[j]
    {
      assert j == 10 || j == 11 || j == 12;
    }
  }

  lemma SuccessNotIn10()
    ensures "successMessage" !in EnSections[10]
  {
    assert EnSections[10] == EnStoryModal;
  }

  lemma SuccessNotIn11()
    ensures "successMessage" !in EnSections[11]
  {
    assert EnSections[11] == EnFeatureButton;
  }

  lemma SuccessNotIn12()
    ensures "successMessage" !in EnSections[12]
  {
    assert EnSections[12] == EnLanguageName;
  }
}
