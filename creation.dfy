/** The creation wizard slice: the mode and its step order, the step pointer,
    the user's selections, the three image-generation slots and the chat log. */
module Creation {
  import opened Common
  import opened CreationOptions

  datatype ChatRole = UserRole | AssistantRole

  /** One entry of the chat log; id and timestamp come from the clock. */
  datatype ChatMessage = ChatMessage(id: string, role: ChatRole, content: string, timestamp: int)

  /** The partial choices the chat assistant may hand back (the payload of
      applyAIChoices); None stands for an absent key. */
  datatype AIChoices = AIChoices(
    theme: Option<string>,
    base: Option<string>,
    shape: Option<string>,
    size: Option<string>,
    flavor: Option<string>,
    decorations: Option<seq<string>>,
    colors: Option<seq<string>>,
    message: Option<string>)

  const NoChoices := AIChoices(None, None, None, None, None, None, None, None)

  const SlotCount := 3
  const MaxColors := 3

  /** The selections that the chat's choices can overwrite. */
  datatype Selections = Selections(
    theme: Option<string>,
    base: Option<string>,
    shape: Option<string>,
    size: Option<string>,
    flavor: Option<string>,
    decorations: seq<string>,
    colors: seq<string>,
    message: string)

  // ---------------------------------------------------------------------
  // Step navigation

  /** nextStep: the step after the current one in the order, staying put on
      the last step; a step outside the order counts as index -1. */
  function NextStepOf(steps: seq<Step>, current: Step): (r: Step)
    ensures r == current || r in steps
    ensures current !in steps && |steps| > 0 ==> r == steps[0]
  {
    var idx := IndexOf(steps, current);
    if idx < |steps| - 1 then steps[idx + 1] else current
  }

  /** prevStep: the step before the current one in the order, staying put on
      the first step. */
  function PrevStepOf(steps: seq<Step>, current: Step): (r: Step)
    ensures r == current || r in steps
    ensures current !in steps ==> r == current
  {
    var idx := IndexOf(steps, current);
    if idx > 0 then steps[idx - 1] else current
  }

  /** On a duplicate-free step list, next moves to the right neighbour and
      stays put on the last step. */
  lemma NextStepIsNeighbour(steps: seq<Step>, i: int)
    requires Distinct(steps) && 0 <= i < |steps|
    ensures NextStepOf(steps, steps[i]) == if i + 1 < |steps| then steps[i + 1] else steps[i]
  {
    IndexOfDistinct(steps, i);
  }

  /** On a duplicate-free step list, prev moves to the left neighbour and
      stays put on the first step. */
  lemma PrevStepIsNeighbour(steps: seq<Step>, i: int)
    requires Distinct(steps) && 0 <= i < |steps|
    ensures PrevStepOf(steps, steps[i]) == if i > 0 then steps[i - 1] else steps[i]
  {
    IndexOfDistinct(steps, i);
  }

  /** A pointer outside the list: next jumps to the first step (or does nothing
      on an empty list) and prev does nothing. */
  lemma NavigationFromUnknownStep(steps: seq<Step>, current: Step)
    requires current !in steps
    ensures NextStepOf(steps, current) == if |steps| == 0 then current else steps[0]
    ensures PrevStepOf(steps, current) == current
  {
  }

  /** Next and prev never take a pointer that is in the list out of it. */
  lemma NavigationStaysInSteps(steps: seq<Step>, current: Step)
    requires current in steps
    ensures NextStepOf(steps, current) in steps
    ensures PrevStepOf(steps, current) in steps
  {
  }

  function NextSteps(steps: seq<Step>, current: Step, n: nat): Step
    decreases n
  {
    if n == 0 then current else NextSteps(steps, NextStepOf(steps, current), n - 1)
  }

  /** In the detailed flow five nexts from the first step reach the preview,
      which sits at index 5, and a sixth changes nothing. */
  lemma GrandPatissierWalk()
    ensures NextSteps(GrandPatissierSteps, GrandPatissierSteps[0], 5) == Preview
    ensures IndexOf(GrandPatissierSteps, Preview) == 5
    ensures NextSteps(GrandPatissierSteps, GrandPatissierSteps[0], 6) == Preview
  {
    StepListsWellFormed();
    var s := GrandPatissierSteps;
    NextStepIsNeighbour(s, 0);
    NextStepIsNeighbour(s, 1);
    NextStepIsNeighbour(s, 2);
    NextStepIsNeighbour(s, 3);
    NextStepIsNeighbour(s, 4);
    NextStepIsNeighbour(s, 5);
    IndexOfDistinct(s, 5);
  }

  // ---------------------------------------------------------------------
  // Colour selection: a toggle capped at three colours

  function ToggleColorIn(colors: seq<string>, id: string): (r: seq<string>)
    ensures |colors| <= MaxColors ==> |r| <= MaxColors
    ensures id in colors ==> |r| == |colors| - 1
    ensures id !in colors ==> (id in r <==> |colors| < MaxColors)
  {
    var idx := IndexOf(colors, id);
    if idx > -1 then RemoveAt(colors, idx)
    else if |colors| < MaxColors then colors + [id]
    else colors
  }

  /** A present colour is always removed, whatever the count; an absent one is
      added only below the cap, so the cap is never exceeded. */
  lemma ToggleColorCapped(colors: seq<string>, id: string)
    ensures id in colors ==> ToggleColorIn(colors, id) == Toggle(colors, id)
                             && |ToggleColorIn(colors, id)| == |colors| - 1
    ensures id !in colors && |colors| < MaxColors ==> ToggleColorIn(colors, id) == colors + [id]
    ensures id !in colors && |colors| >= MaxColors ==> ToggleColorIn(colors, id) == colors
    ensures |colors| <= MaxColors ==> |ToggleColorIn(colors, id)| <= MaxColors
  {
    if id in colors {
      TogglePresent(colors, id);
    }
  }

  // ---------------------------------------------------------------------
  // Choices from the chat

  /** A payload string overwrites a selection only when it is truthy. */
  function Overwrite(current: Option<string>, payload: Option<string>): Option<string> {
    if Truthy(payload) then payload else current
  }

  /** applyAIChoices on the selections: a string field is overwritten when the
      payload's value is truthy, a list field whenever it is present. */
  function ApplyChoices(s: Selections, c: AIChoices): (r: Selections)
    ensures Truthy(c.theme) ==> r.theme == c.theme
    ensures !Truthy(c.theme) ==> r.theme == s.theme
    ensures Truthy(c.base) ==> r.base == c.base
    ensures !Truthy(c.base) ==> r.base == s.base
    ensures Truthy(c.shape) ==> r.shape == c.shape
    ensures !Truthy(c.shape) ==> r.shape == s.shape
    ensures Truthy(c.size) ==> r.size == c.size
    ensures !Truthy(c.size) ==> r.size == s.size
    ensures Truthy(c.flavor) ==> r.flavor == c.flavor
    ensures !Truthy(c.flavor) ==> r.flavor == s.flavor
    ensures c.decorations.Some? ==> r.decorations == c.decorations.value
    ensures c.decorations.None? ==> r.decorations == s.decorations
    ensures c.colors.Some? ==> r.colors == c.colors.value
    ensures c.colors.None? ==> r.colors == s.colors
    ensures Truthy(c.message) ==> r.message == c.message.value
    ensures !Truthy(c.message) ==> r.message == s.message
  {
    Selections(
      Overwrite(s.theme, c.theme),
      Overwrite(s.base, c.base),
      Overwrite(s.shape, c.shape),
      Overwrite(s.size, c.size),
      Overwrite(s.flavor, c.flavor),
      if c.decorations.Some? then c.decorations.value else s.decorations,
      if c.colors.Some? then c.colors.value else s.colors,
      if Truthy(c.message) then c.message.value else s.message)
  }

  /** Applying the same choices twice is the same as applying them once, and
      applying no choices changes nothing. */
  lemma ApplyChoicesIdempotent(s: Selections, c: AIChoices)
    ensures ApplyChoices(ApplyChoices(s, c), c) == ApplyChoices(s, c)
    ensures ApplyChoices(s, NoChoices) == s
  {
  }

  /** Choices replace the colour list wholesale, past the toggle's cap. */
  lemma ApplyChoicesBypassesColorCap(s: Selections)
    ensures |ApplyChoices(s, NoChoices.(colors := Some(["pink", "blue", "purple", "green"]))).colors| > MaxColors
  {
  }

  /** An empty list is truthy: it clears the decorations, while an empty
      message string leaves the message alone. */
  lemma ApplyChoicesTruthiness(s: Selections)
    ensures ApplyChoices(s, NoChoices.(decorations := Some([]))).decorations == []
    ensures ApplyChoices(s, NoChoices.(message := Some(""))).message == s.message
  {
  }

  // ---------------------------------------------------------------------
  // The slice itself. Each reducer names in its modifies clause the fields it
  // assigns; every other field keeps its value.

  class CreationStore {
    var mode: Option<Mode>
    var currentStep: Step
    var steps: seq<Step>
    var selectedTheme: Option<string>
    var selectedBase: Option<string>
    var selectedShape: Option<string>
    var selectedSize: Option<string>
    var selectedFlavor: Option<string>
    var selectedGarniture: Option<string>
    var selectedDecorations: seq<string>
    var selectedColors: seq<string>
    var cakeMessage: string
    var aiPrompt: string
    var generatedImages: seq<Option<string>>
    var generatingSlot: Option<int>
    var generationErrors: seq<Option<string>>
    var selectedImageIndex: Option<int>
    var isChatOpen: bool
    var chatMessages: seq<ChatMessage>

    /** The three slots keep their length. */
    ghost predicate Valid()
      reads this
    {
      |generatedImages| == SlotCount && |generationErrors| == SlotCount
    }

    /** The initial state: no mode, the pointer on the theme step of an empty
        step list, nothing selected, three empty slots, an empty chat. */
    ghost predicate IsInitial()
      reads this
    {
      && mode == None && currentStep == Theme && steps == []
      && selectedTheme == None && selectedBase == None && selectedShape == None
      && selectedSize == None && selectedFlavor == None && selectedGarniture == None
      && selectedDecorations == [] && selectedColors == [] && cakeMessage == "" && aiPrompt == ""
      && generatedImages == [None, None, None] && generatingSlot == None
      && generationErrors == [None, None, None] && selectedImageIndex == None
      && !isChatOpen && chatMessages == []
    }

    function CurrentSelections(): Selections
      reads this
    {
      Selections(selectedTheme, selectedBase, selectedShape, selectedSize, selectedFlavor,
                 selectedDecorations, selectedColors, cakeMessage)
    }

    constructor ()
      ensures IsInitial() && Valid()
    {
      mode, currentStep, steps := None, Theme, [];
      selectedTheme, selectedBase, selectedShape := None, None, None;
      selectedSize, selectedFlavor, selectedGarniture := None, None, None;
      selectedDecorations, selectedColors, cakeMessage, aiPrompt := [], [], "", "";
      generatedImages, generatingSlot, generationErrors := [None, None, None], None, [None, None, None];
      selectedImageIndex, isChatOpen, chatMessages := None, false, [];
    }

    /** Fixes the step order of the mode and moves to its first step. */
    method SetMode(m: Mode)
      modifies this`mode, this`steps, this`currentStep
      ensures mode == Some(m) && steps == StepsFor(m) && currentStep == steps[0]
      ensures currentStep in steps && IndexOf(steps, currentStep) == 0
    {
      mode := Some(m);
      steps := if m == PetitChef then PetitChefSteps else GrandPatissierSteps;
      currentStep := steps[0];
      IndexOfDistinct(steps, 0);
    }

    /** Jumps to any step, listed in `steps` or not. */
    method GoToStep(s: Step)
      modifies this`currentStep
      ensures currentStep == s
    {
      currentStep := s;
    }

    method NextStep()
      modifies this`currentStep
      ensures currentStep == NextStepOf(steps, old(currentStep))
    {
      var idx := IndexOf(steps, currentStep);
      if idx < |steps| - 1 {
        currentStep := steps[idx + 1];
      }
    }

    method PrevStep()
      modifies this`currentStep
      ensures currentStep == PrevStepOf(steps, old(currentStep))
    {
      var idx := IndexOf(steps, currentStep);
      if idx > 0 {
        currentStep := steps[idx - 1];
      }
    }

    method SelectTheme(v: string)
      modifies this`selectedTheme
      ensures selectedTheme == Some(v)
    {
      selectedTheme := Some(v);
    }

    method SelectBase(v: string)
      modifies this`selectedBase
      ensures selectedBase == Some(v)
    {
      selectedBase := Some(v);
    }

    method SelectShape(v: string)
      modifies this`selectedShape
      ensures selectedShape == Some(v)
    {
      selectedShape := Some(v);
    }

    method SelectSize(v: string)
      modifies this`selectedSize
      ensures selectedSize == Some(v)
    {
      selectedSize := Some(v);
    }

    method SelectFlavor(v: string)
      modifies this`selectedFlavor
      ensures selectedFlavor == Some(v)
    {
      selectedFlavor := Some(v);
    }

    method SelectGarniture(v: string)
      modifies this`selectedGarniture
      ensures selectedGarniture == Some(v)
    {
      selectedGarniture := Some(v);
    }

    method ToggleDecoration(id: string)
      modifies this`selectedDecorations
      ensures selectedDecorations == Toggle(old(selectedDecorations), id)
    {
      var idx := IndexOf(selectedDecorations, id);
      if idx > -1 {
        selectedDecorations := RemoveAt(selectedDecorations, idx);
      } else {
        selectedDecorations := selectedDecorations + [id];
      }
    }

    method ToggleColor(id: string)
      modifies this`selectedColors
      ensures selectedColors == ToggleColorIn(old(selectedColors), id)
      ensures |old(selectedColors)| <= MaxColors ==> |selectedColors| <= MaxColors
    {
      ToggleColorCapped(selectedColors, id);
      var idx := IndexOf(selectedColors, id);
      if idx > -1 {
        selectedColors := RemoveAt(selectedColors, idx);
      } else if |selectedColors| < MaxColors {
        selectedColors := selectedColors + [id];
      }
    }

    /** Stores the message as given: no length limit is applied here. */
    method SetCakeMessage(m: string)
      modifies this`cakeMessage
      ensures cakeMessage == m
    {
      cakeMessage := m;
    }

    method SetAiPrompt(p: string)
      modifies this`aiPrompt
      ensures aiPrompt == p
    {
      aiPrompt := p;
    }

    /** A slot succeeds: its image is set, its error cleared, and no slot is
        marked as generating any more; the other slots are untouched. */
    method SetGeneratedImage(index: int, url: string)
      requires Valid() && 0 <= index < SlotCount
      modifies this`generatedImages, this`generatingSlot, this`generationErrors
      ensures generatedImages == old(generatedImages)[index := Some(url)]
      ensures generationErrors == old(generationErrors)[index := None]
      ensures generatingSlot == None && Valid()
    {
      generatedImages := generatedImages[index := Some(url)];
      generatingSlot := None;
      generationErrors := generationErrors[index := None];
    }

    /** Marks a slot (or none) as generating; a marked slot loses its error,
        and clearing the mark leaves every error alone. */
    method SetGenerating(slot: Option<int>)
      requires Valid() && (slot.Some? ==> 0 <= slot.value < SlotCount)
      modifies this`generatingSlot, this`generationErrors
      ensures generatingSlot == slot
      ensures generationErrors == if slot.Some? then old(generationErrors)[slot.value := None]
                                  else old(generationErrors)
      ensures Valid()
    {
      generatingSlot := slot;
      if slot.Some? {
        generationErrors := generationErrors[slot.value := None];
      }
    }

    /** A slot fails: its error is recorded, its image is kept, and no slot is
        marked as generating any more. */
    method SetGenerationError(index: int, error: string)
      requires Valid() && 0 <= index < SlotCount
      modifies this`generationErrors, this`generatingSlot
      ensures generationErrors == old(generationErrors)[index := Some(error)]
      ensures generatingSlot == None && Valid()
    {
      generationErrors := generationErrors[index := Some(error)];
      generatingSlot := None;
    }

    method SelectImage(index: int)
      modifies this`selectedImageIndex
      ensures selectedImageIndex == Some(index)
    {
      selectedImageIndex := Some(index);
    }

    method ToggleChat()
      modifies this`isChatOpen
      ensures isChatOpen == !old(isChatOpen)
    {
      isChatOpen := !isChatOpen;
    }

    /** The chat log only grows, one message at a time. */
    method AddChatMessage(m: ChatMessage)
      modifies this`chatMessages
      ensures chatMessages == old(chatMessages) + [m]
    {
      chatMessages := chatMessages + [m];
    }

    method ApplyAIChoices(c: AIChoices)
      modifies this`selectedTheme, this`selectedBase, this`selectedShape, this`selectedSize,
               this`selectedFlavor, this`selectedDecorations, this`selectedColors, this`cakeMessage
      ensures CurrentSelections() == ApplyChoices(old(CurrentSelections()), c)
    {
      selectedTheme, selectedBase, selectedShape := Overwrite(selectedTheme, c.theme), Overwrite(selectedBase, c.base), Overwrite(selectedShape, c.shape);
      selectedSize, selectedFlavor := Overwrite(selectedSize, c.size), Overwrite(selectedFlavor, c.flavor);
      selectedDecorations := if c.decorations.Some? then c.decorations.value else selectedDecorations;
      selectedColors := if c.colors.Some? then c.colors.value else selectedColors;
      cakeMessage := if Truthy(c.message) then c.message.value else cakeMessage;
    }

    /** Back to the initial state. */
    method ResetCreation()
      modifies this
      ensures IsInitial() && Valid()
    {
      ResetWizard();
      ResetSelections();
      ResetGeneration();
      ResetChat();
    }

    method ResetWizard()
      modifies this`mode, this`currentStep, this`steps
      ensures mode == None && currentStep == Theme && steps == []
    {
      mode, currentStep, steps := None, Theme, [];
    }

    method ResetSelections()
      modifies this`selectedTheme, this`selectedBase, this`selectedShape, this`selectedSize,
               this`selectedFlavor, this`selectedGarniture, this`selectedDecorations,
               this`selectedColors, this`cakeMessage
      ensures selectedTheme == None && selectedBase == None && selectedShape == None
      ensures selectedSize == None && selectedFlavor == None && selectedGarniture == None
      ensures selectedDecorations == [] && selectedColors == [] && cakeMessage == ""
    {
      selectedTheme, selectedBase, selectedShape := None, None, None;
      selectedSize, selectedFlavor, selectedGarniture := None, None, None;
      selectedDecorations, selectedColors, cakeMessage := [], [], "";
    }

    method ResetGeneration()
      modifies this`aiPrompt, this`generatedImages, this`generatingSlot,
               this`generationErrors, this`selectedImageIndex
      ensures aiPrompt == "" && generatedImages == [None, None, None] && generatingSlot == None
      ensures generationErrors == [None, None, None] && selectedImageIndex == None
    {
      aiPrompt, generatedImages, generatingSlot := "", [None, None, None], None;
      generationErrors, selectedImageIndex := [None, None, None], None;
    }

    method ResetChat()
      modifies this`isChatOpen, this`chatMessages
      ensures !isChatOpen && chatMessages == []
    {
      isChatOpen, chatMessages := false, [];
    }
  }

  // ---------------------------------------------------------------------
  // Scenarios

  /** The detailed flow end to end: choose the mode, make five selections and
      advance through every step; the wizard is on the preview at index 5 with
      every selection intact. */
  method GrandPatissierScenario() returns (step: Step, index: int, picked: Selections)
    ensures step == Preview && index == 5
    ensures picked.base == Some("round") && picked.flavor == Some("chocolate")
    ensures picked.decorations == ["stars"] && picked.colors == ["pink", "blue"]
    ensures picked.message == "Happy Birthday"
  {
    var store := new CreationStore();
    store.SetMode(GrandPatissier);
    Fill(store);
    Advance(store, 0);
    Advance(store, 1);
    Advance(store, 2);
    Advance(store, 3);
    Advance(store, 4);
    picked := store.CurrentSelections();
    IndexOfDistinct(GrandPatissierSteps, 5);
    step, index := store.currentStep, IndexOf(store.steps, store.currentStep);
  }

  /** One next on the detailed flow, from the step at index `i`. */
  method Advance(store: CreationStore, i: int)
    requires 0 <= i < 5 && store.steps == GrandPatissierSteps && store.currentStep == GrandPatissierSteps[i]
    modifies store`currentStep
    ensures store.currentStep == GrandPatissierSteps[i + 1]
  {
    StepListsWellFormed();
    NextStepIsNeighbour(GrandPatissierSteps, i);
    store.NextStep();
  }

  method Fill(store: CreationStore)
    requires store.selectedDecorations == [] && store.selectedColors == []
    modifies store`selectedBase, store`selectedFlavor, store`selectedDecorations,
             store`selectedColors, store`cakeMessage
    ensures store.selectedBase == Some("round") && store.selectedFlavor == Some("chocolate")
    ensures store.selectedDecorations == ["stars"] && store.selectedColors == ["pink", "blue"]
    ensures store.cakeMessage == "Happy Birthday"
  {
    store.SelectBase("round");
    store.SelectFlavor("chocolate");
    PickDecoration(store, "stars");
    assert "pink" != "blue" by { assert "pink"[0] != "blue"[0]; }
    PickTwoColors(store, "pink", "blue");
    store.SetCakeMessage("Happy Birthday");
  }

  /** Toggling a decoration on an empty list selects just that decoration. */
  method PickDecoration(store: CreationStore, id: string)
    requires store.selectedDecorations == []
    modifies store`selectedDecorations
    ensures store.selectedDecorations == [id]
  {
    ToggleTwiceAbsent([], id);
    store.ToggleDecoration(id);
  }

  /** Toggling two different colours on an empty list selects both, in order. */
  method PickTwoColors(store: CreationStore, a: string, b: string)
    requires store.selectedColors == [] && a != b
    modifies store`selectedColors
    ensures store.selectedColors == [a, b]
  {
    ToggleColorCapped([], a);
    store.ToggleColor(a);
    ToggleColorCapped([a], b);
    store.ToggleColor(b);
  }

  /** A slot that failed and is then retried successfully loses its error;
      the other slots keep their images and errors. */
  method SlotRetryScenario(store: CreationStore, slot: int, error: string, url: string)
    requires store.Valid() && 0 <= slot < SlotCount
    modifies store
    ensures store.Valid()
    ensures store.generationErrors[slot] == None && store.generatedImages[slot] == Some(url)
    ensures forall k :: 0 <= k < SlotCount && k != slot ==>
              store.generationErrors[k] == old(store.generationErrors[k])
              && store.generatedImages[k] == old(store.generatedImages[k])
    ensures store.generatingSlot == None
  {
    store.SetGenerating(Some(slot));
    store.SetGenerationError(slot, error);
    store.SetGenerating(Some(slot));
    store.SetGeneratedImage(slot, url);
  }
}
