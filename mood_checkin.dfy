/** The home panel's "How are you feeling today?" check-in. */
module MoodCheckIn {
  import opened Wrappers
  import opened Text

  datatype Mood = Happy | Neutral | Sad | Stressed | Anxious

  const HappyPrompt := "That's great! What's making you happy today?"
  const NeutralPrompt := "What's on your mind today?"
  const SadPrompt := "I'm sorry to hear that. Would you like to talk about what's bothering you?"
  const StressedPrompt := "Stress can be challenging. What's causing you stress today?"
  const AnxiousPrompt := "I understand anxiety can be difficult. Would you like to share what's making you anxious?"

  /** The follow-up question shown for each mood. */
  function PromptText(m: Mood): string
  {
    match m
    case Happy => HappyPrompt
    case Neutral => NeutralPrompt
    case Sad => SadPrompt
    case Stressed => StressedPrompt
    case Anxious => AnxiousPrompt
  }

  /** Each mood has its own question: the five questions differ in length. */
  lemma PromptTextInjective(m1: Mood, m2: Mood)
    requires m1 != m2
    ensures PromptText(m1) != PromptText(m2)
  {
    assert |HappyPrompt| == 44 && |NeutralPrompt| == 26 && |SadPrompt| == 74;
    assert |StressedPrompt| == 59 && |AnxiousPrompt| == 89;
  }

  /** What the check-in card renders: the mood picker, the mood's question, the response form,
      the thank-you note, or nothing at all. */
  datatype View = Picker | Prompt(mood: Mood) | Form | Thanks | NoView

  /** The conditional chain of the card, tested in order: no mood, the question, the form,
      the thank-you note. */
  function ViewOf(selectedMood: Option<Mood>, showMoodPrompt: bool, showResponseInput: bool,
                  submittedResponse: bool): (v: View)
    ensures v == Picker <==> selectedMood == None
    ensures v.Prompt? <==> selectedMood.Some? && showMoodPrompt && !showResponseInput && !submittedResponse
    ensures v.Prompt? ==> v.mood == selectedMood.value
    ensures v == Form <==> selectedMood.Some? && !v.Prompt? && showResponseInput
    ensures v == Thanks <==> selectedMood.Some? && !showResponseInput && submittedResponse
    ensures v == NoView <==> selectedMood.Some? && !showMoodPrompt && !showResponseInput && !submittedResponse
  {
    if selectedMood.None? then Picker
    else if showMoodPrompt && !showResponseInput && !submittedResponse then Prompt(selectedMood.value)
    else if showResponseInput then Form
    else if submittedResponse then Thanks
    else NoView
  }

  /** The check-in card's state. */
  class CheckIn {
    var selectedMood: Option<Mood>
    var showMoodPrompt: bool
    var moodResponse: string
    var showResponseInput: bool
    var submittedResponse: bool

    /** Every handler keeps the question flag set while a mood is chosen. */
    predicate Valid()
      reads this
    {
      selectedMood.Some? ==> showMoodPrompt
    }

    predicate IsInitial()
      reads this
    {
      selectedMood == None && !showMoodPrompt && moodResponse == ""
      && !showResponseInput && !submittedResponse
    }

    function CurrentView(): (v: View)
      reads this
      ensures Valid() ==> v != NoView
    {
      ViewOf(selectedMood, showMoodPrompt, showResponseInput, submittedResponse)
    }

    constructor ()
      ensures Valid() && IsInitial() && CurrentView() == Picker
    {
      selectedMood, showMoodPrompt, moodResponse := None, false, "";
      showResponseInput, submittedResponse := false, false;
    }

    /** A mood button: records the mood and shows its question. */
    method MoodSelect(m: Mood)
      requires Valid()
      modifies this
      ensures Valid()
      ensures selectedMood == Some(m) && showMoodPrompt
      ensures moodResponse == old(moodResponse) && showResponseInput == old(showResponseInput)
              && submittedResponse == old(submittedResponse)
      ensures old(CurrentView()) == Picker && !old(showResponseInput) && !old(submittedResponse)
              ==> CurrentView() == Prompt(m)
    {
      selectedMood := Some(m);
      showMoodPrompt := true;
    }

    /** 'Share your thoughts': opens the response form. */
    method PromptClick()
      requires Valid()
      modifies this
      ensures Valid()
      ensures showResponseInput
      ensures selectedMood == old(selectedMood) && showMoodPrompt == old(showMoodPrompt)
              && moodResponse == old(moodResponse) && submittedResponse == old(submittedResponse)
      ensures old(CurrentView()).Prompt? ==> CurrentView() == Form
    {
      showResponseInput := true;
    }

    /** Typing in the response box. */
    method SetResponse(text: string)
      requires Valid()
      modifies this
      ensures Valid()
      ensures moodResponse == text
      ensures selectedMood == old(selectedMood) && showMoodPrompt == old(showMoodPrompt)
              && showResponseInput == old(showResponseInput) && submittedResponse == old(submittedResponse)
    {
      moodResponse := text;
    }

    /** The response form's submit: a response that trims to empty changes nothing; any other
        marks the check-in submitted and closes the form. */
    method SubmitResponse()
      requires Valid()
      modifies this
      ensures Valid()
      ensures selectedMood == old(selectedMood) && showMoodPrompt == old(showMoodPrompt)
              && moodResponse == old(moodResponse)
      ensures Trim(old(moodResponse)) == [] ==>
                showResponseInput == old(showResponseInput) && submittedResponse == old(submittedResponse)
      ensures Trim(old(moodResponse)) != [] ==> submittedResponse && !showResponseInput
      ensures Trim(old(moodResponse)) != [] && old(selectedMood).Some? ==> CurrentView() == Thanks
    {
      if Trim(moodResponse) != [] {
        submittedResponse := true;
        showResponseInput := false;
      }
    }

    /** 'Check in again': clears the mood, the question, the text and the submitted flag;
        from the thank-you note this is the initial state again. */
    method CheckInAgain()
      requires Valid()
      modifies this
      ensures Valid()
      ensures selectedMood == None && !showMoodPrompt && moodResponse == "" && !submittedResponse
      ensures showResponseInput == old(showResponseInput)
      ensures old(CurrentView()) == Thanks ==> IsInitial()
      ensures CurrentView() == Picker
    {
      selectedMood := None;
      showMoodPrompt := false;
      moodResponse := "";
      submittedResponse := false;
    }
  }
}
