/**
 * The book-creation wizard of the create page: a four-step form (concept, details, structure,
 * review) whose step counter moves forward only through validation gates and backward freely,
 * four progress indicators that each move rewrites, and the texts the page derives from the
 * form (the capped concept, the review panel, the generation prompt, the result title).
 */
module Create {
  import opened Wrappers
  import opened Text

  /** The concept box keeps at most this many characters. */
  const ConceptLimit: nat := 500
  /** The number of wizard steps and of progress indicators. */
  const StepCount: nat := 4

  const ConceptAlert := "Please enter a concept for your book."
  const DetailsAlert := "Please fill in all details."
  const StructureAlert := "Please select a structure."

  /**
   * The form record. `structureLabel` is the heading of the chosen structure card; it is absent
   * (JavaScript `undefined`) until a card is chosen.
   */
  datatype FormData = FormData(
    concept: string, genre: string, tone: string, length: string, pov: string,
    elements: string, structure: string, requirements: string,
    structureLabel: Option<string>)

  /** The record the page starts with and `resetForm` restores: eight empty fields, no heading. */
  const EmptyForm := FormData("", "", "", "", "", "", "", "", None)

  /** The form fields set by a select or a free-text box. */
  datatype Detail = Genre | Tone | Length | Pov | Elements | Requirements

  /** One progress indicator: the `active` and `completed` classes it carries. */
  datatype StepStatus = StepStatus(active: bool, completed: bool)

  /** What a move of the wizard did: it moved, or it was stopped with an alert. */
  datatype Outcome = Moved | Rejected(alert: string)

  /** The six lines of the review panel. */
  datatype Review = Review(concept: string, genre: string, tone: string, length: string, pov: string, structure: string)

  /** The value of the concept box after an input event: cut to its first 500 characters. */
  function CapConcept(value: string): (r: string)
    ensures r <= value
    ensures |r| == if |value| <= ConceptLimit then |value| else ConceptLimit
  {
    if |value| > ConceptLimit then value[..ConceptLimit] else value
  }

  /** The field of the form that a detail control sets. */
  function DetailValue(fd: FormData, d: Detail): string {
    match d
    case Genre => fd.genre
    case Tone => fd.tone
    case Length => fd.length
    case Pov => fd.pov
    case Elements => fd.elements
    case Requirements => fd.requirements
  }

  /** Applies one select or text box change to the form: that field takes the value, nothing else changes. */
  function WithDetail(fd: FormData, d: Detail, value: string): (r: FormData)
    ensures DetailValue(r, d) == value
    ensures forall e :: e != d ==> DetailValue(r, e) == DetailValue(fd, e)
    ensures r.concept == fd.concept && r.structure == fd.structure && r.structureLabel == fd.structureLabel
  {
    match d
    case Genre => fd.(genre := value)
    case Tone => fd.(tone := value)
    case Length => fd.(length := value)
    case Pov => fd.(pov := value)
    case Elements => fd.(elements := value)
    case Requirements => fd.(requirements := value)
  }

  /** `value || '-'`: a field as the review panel shows it. */
  function OrDash(value: string): (shown: string)
    ensures shown != ""
    ensures value != "" ==> shown == value
    ensures value == "" ==> shown == "-"
  {
    if value != "" then value else "-"
  }

  /** `structureLabel || '-'`, where the heading may be missing. */
  function LabelOrDash(heading: Option<string>): (shown: string)
    ensures shown != ""
    ensures heading.Some? && heading.value != "" ==> shown == heading.value
    ensures heading == None || heading == Some("") ==> shown == "-"
  {
    match heading
    case None => "-"
    case Some(l) => OrDash(l)
  }

  /** `shown` is how the review panel presents `value`. */
  predicate Presents(shown: string, value: string) {
    if value == "" then shown == "-" else shown == value
  }

  /** `updateReviewPanel`: each line shows its field, or `-` when the field is empty or missing. */
  function RenderReview(fd: FormData): (r: Review)
    ensures Presents(r.concept, fd.concept) && Presents(r.genre, fd.genre) && Presents(r.tone, fd.tone)
    ensures Presents(r.length, fd.length) && Presents(r.pov, fd.pov)
    ensures Presents(r.structure, if fd.structureLabel.Some? then fd.structureLabel.value else "")
  {
    Review(OrDash(fd.concept), OrDash(fd.genre), OrDash(fd.tone), OrDash(fd.length), OrDash(fd.pov),
      LabelOrDash(fd.structureLabel))
  }

  /** `${structureLabel}` in a template literal: a missing heading prints as `undefined`. */
  function LabelText(heading: Option<string>): (t: string)
    ensures heading == None ==> t == "undefined" && t != LabelOrDash(heading)
    ensures heading.Some? && heading.value != "" ==> t == LabelOrDash(heading)
  {
    match heading
    case None => "undefined"
    case Some(l) => l
  }

  /** The closing request of the prompt. */
  const PromptTail := "Please provide:\n1. A compelling title\n2. Chapter-by-chapter outline\n3. Opening scene (1000 words)\n4. Character profiles for main characters"

  /** The blank line between two paragraphs of the prompt. */
  const Gap := "\n\n"

  /** The first paragraph of the prompt. */
  function PromptOpening(fd: FormData): string {
    "Create a " + fd.length + " " + fd.genre + " story written in " + fd.pov + " point of view."
  }

  function ConceptParagraph(fd: FormData): string {
    "CONCEPT: " + fd.concept
  }

  function ToneParagraph(fd: FormData): string {
    "TONE: " + fd.tone
  }

  function StructureParagraph(fd: FormData): string {
    "STRUCTURE: Use a " + LabelText(fd.structureLabel) + " narrative structure."
  }

  /** The optional key-elements paragraph; empty when no elements were given. */
  function ElementsLine(elements: string): (line: string)
    ensures line == "" <==> elements == ""
    ensures elements != "" ==> line == "KEY ELEMENTS: Include " + elements + "."
  {
    if elements != "" then "KEY ELEMENTS: Include " + elements + "." else ""
  }

  /** The optional special-requirements paragraph; empty when none were given. */
  function RequirementsLine(requirements: string): (line: string)
    ensures line == "" <==> requirements == ""
    ensures requirements != "" ==> line == "SPECIAL REQUIREMENTS: " + requirements
  {
    if requirements != "" then "SPECIAL REQUIREMENTS: " + requirements else ""
  }

  /**
   * `generatePrompt`: seven paragraphs separated by blank lines. It opens with the request for
   * length, genre and point of view; the concept paragraph follows `CONCEPT: ` verbatim; the
   * key-elements line sits between the tone and the structure paragraphs, and is empty exactly
   * when no elements were given; likewise the special-requirements line between the structure
   * paragraph and the closing request, with which the prompt ends.
   */
  function GeneratePrompt(fd: FormData): (r: string)
    ensures PromptOpening(fd) + Gap <= r
    ensures Contains(r, Gap + ConceptParagraph(fd) + Gap)
    ensures Contains(r, ToneParagraph(fd) + Gap + ElementsLine(fd.elements) + Gap + StructureParagraph(fd))
    ensures Contains(r, StructureParagraph(fd) + Gap + RequirementsLine(fd.requirements) + Gap + PromptTail)
    ensures |r| >= |PromptTail| && r[|r| - |PromptTail|..] == PromptTail
  {
    var opening, concept, tone := PromptOpening(fd), ConceptParagraph(fd), ToneParagraph(fd);
    var elements, structure := ElementsLine(fd.elements), StructureParagraph(fd);
    var requirements := RequirementsLine(fd.requirements);
    ParagraphLayout(opening, concept, tone, elements, structure, requirements, PromptTail, Gap);
    Layout(opening, concept, tone, elements, structure, requirements, PromptTail, Gap)
  }

  /** A seven-paragraph text joined by `g`, grouped as opening, middle and closing blocks. */
  function Layout(o: string, c: string, t: string, e: string, s: string, q: string, z: string, g: string): string {
    (o + g + c + g) + (t + g + e + g + s) + (g + q + g + z)
  }

  /** Where the paragraphs of `Layout` stand. */
  lemma ParagraphLayout(o: string, c: string, t: string, e: string, s: string, q: string, z: string, g: string)
    ensures var text := Layout(o, c, t, e, s, q, z, g);
      && o + g <= text
      && Contains(text, g + c + g)
      && Contains(text, t + g + e + g + s)
      && Contains(text, s + g + q + g + z)
      && |text| >= |z| && text[|text| - |z|..] == z
  {
    var front, middle, back := o + g + c + g, t + g + e + g + s, g + q + g + z;
    OpeningBlock(o, c, g, middle + back);
    assert front + middle + back == front + (middle + back);
    ContainsMiddle(front, middle, back);
    ClosingBlock(t + g + e + g, s, back, front);
    assert s + back == s + g + q + g + z;
    assert front + middle + back == (front + middle + g + q + g) + z;
  }

  lemma OpeningBlock(o: string, c: string, g: string, rest: string)
    ensures o + g <= (o + g + c + g) + rest
    ensures Contains((o + g + c + g) + rest, g + c + g)
  {
    assert (o + g + c + g) + rest == (o + g) + (c + g + rest);
    assert (o + g + c + g) + rest == o + (g + c + g) + rest;
    ContainsMiddle(o, g + c + g, rest);
  }

  lemma ClosingBlock(head: string, s: string, back: string, front: string)
    ensures Contains(front + (head + s) + back, s + back)
  {
    assert front + (head + s) + back == (front + head) + (s + back) + "";
    ContainsMiddle(front + head, s + back, "");
  }

  /** The result title: the first five space-separated words of the concept, joined, then `...`. */
  function ResultTitle(concept: string): (title: string)
    ensures title == BeforeSpace(concept, 4) + "..."
  {
    FirstWordsIsPrefix(concept, 4);
    FirstWords(concept, 5) + "..."
  }

  /** All four details of the second step are filled in. */
  predicate DetailsComplete(fd: FormData) {
    fd.genre != "" && fd.tone != "" && fd.length != "" && fd.pov != ""
  }

  /**
   * The validation gates of `nextStep`: entering step 2 needs a concept that is not blank,
   * entering step 4 needs all four details and then a structure; every other move passes.
   */
  function Gate(fd: FormData, step: int): (r: Outcome)
    ensures r == Moved <==>
      (step == 2 ==> !Blank(fd.concept)) && (step == 4 ==> DetailsComplete(fd) && fd.structure != "")
    ensures r == Rejected(ConceptAlert) <==> step == 2 && Blank(fd.concept)
    ensures r == Rejected(DetailsAlert) <==> step == 4 && !DetailsComplete(fd)
    ensures r == Rejected(StructureAlert) <==> step == 4 && DetailsComplete(fd) && fd.structure == ""
  {
    if step == 2 && Trim(fd.concept) == "" then Rejected(ConceptAlert)
    else if step == 4 && (fd.genre == "" || fd.tone == "" || fd.length == "" || fd.pov == "") then Rejected(DetailsAlert)
    else if step == 4 && fd.structure == "" then Rejected(StructureAlert)
    else Moved
  }

  /**
   * The indicators show step `step` as the one being worked on: it alone is active, and every
   * step before it is completed.
   */
  ghost predicate Shows(p: seq<StepStatus>, step: int) {
    && |p| == StepCount
    && (forall i :: 0 <= i < |p| ==> (p[i].active <==> i == step - 1))
    && (forall i :: 0 <= i < |p| && i < step - 1 ==> p[i].completed)
  }

  /**
   * The indicators after an accepted `nextStep(step)`: step `step` alone active, the steps before
   * it completed, and a completed mark on a later step kept.
   */
  function Advanced(p: seq<StepStatus>, step: int): (r: seq<StepStatus>)
    requires |p| == StepCount && 1 <= step <= StepCount
    ensures Shows(r, step)
    ensures forall i :: 0 <= i < |r| ==> (r[i].completed <==> p[i].completed || i < step - 1)
  {
    seq(StepCount, i requires 0 <= i < StepCount => StepStatus(i == step - 1, p[i].completed || i < step - 1))
  }

  /**
   * The indicators after `prevStep(step)`: step `step` alone active, exactly the steps before it
   * completed, whatever they showed before.
   */
  function Rewound(step: int): (r: seq<StepStatus>)
    requires 1 <= step <= StepCount
    ensures Shows(r, step)
    ensures forall i :: 0 <= i < |r| ==> (r[i].completed <==> i < step - 1)
  {
    seq(StepCount, i requires 0 <= i < StepCount => StepStatus(i == step - 1, i < step - 1))
  }

  /** The page state of the create page. */
  class CreatePage {
    /** `currentStep`. */
    var currentStep: int
    /** `formData`. */
    var formData: FormData
    /** The four `.step` progress indicators; indicator `i` is stored at index `i - 1`. */
    const progress: array<StepStatus>
    /** The text of the review panel. */
    var review: Review
    /** The text of the generated prompt. */
    var promptText: string
    /** The number shown by the character counter of the concept box. */
    var charCount: nat

    /**
     * The indicators show the current step, and a chosen structure always comes with its heading
     * (a structure card sets both).
     */
    ghost predicate Valid()
      reads this, progress
    {
      && progress.Length == StepCount
      && 1 <= currentStep <= StepCount
      && Shows(progress[..], currentStep)
      && (formData.structure != "" ==> formData.structureLabel.Some?)
    }

    /** Page load: step 1 active, an empty form, and the review panel rendered from it. */
    constructor()
      ensures Valid() && fresh(progress)
      ensures currentStep == 1 && formData == EmptyForm
      ensures progress[..] == Rewound(1)
      ensures review == RenderReview(EmptyForm) && promptText == "" && charCount == 0
    {
      currentStep := 1;
      formData := EmptyForm;
      progress := new StepStatus[StepCount](i => StepStatus(i == 0, false));
      review := RenderReview(EmptyForm);
      promptText := "";
      charCount := 0;
      new;
      assert progress[..] == Rewound(1);
    }

    /** An input event of the concept box: the text is cut to 500 characters and stored. */
    method InputConcept(value: string)
      requires Valid()
      modifies this
      ensures Valid()
      ensures formData == old(formData).(concept := CapConcept(value))
      ensures charCount == |formData.concept|
      ensures currentStep == old(currentStep) && review == old(review) && promptText == old(promptText)
    {
      var capped := CapConcept(value);
      formData := formData.(concept := capped);
      charCount := |capped|;
    }

    /** A suggestion chip: its prompt becomes the concept, with no cut. */
    method ClickChip(prompt: string)
      requires Valid()
      modifies this
      ensures Valid()
      ensures formData == old(formData).(concept := prompt)
      ensures charCount == |prompt|
      ensures currentStep == old(currentStep) && review == old(review) && promptText == old(promptText)
    {
      formData := formData.(concept := prompt);
      charCount := |prompt|;
    }

    /** A change of one of the detail selects or free-text boxes. */
    method ChangeDetail(d: Detail, value: string)
      requires Valid()
      modifies this
      ensures Valid()
      ensures formData == WithDetail(old(formData), d, value)
      ensures currentStep == old(currentStep) && charCount == old(charCount)
      ensures review == old(review) && promptText == old(promptText)
    {
      formData := WithDetail(formData, d, value);
    }

    /** A structure card: its key and its heading are stored together. */
    method SelectStructure(key: string, heading: string)
      requires Valid()
      modifies this
      ensures Valid()
      ensures formData == old(formData).(structure := key, structureLabel := Some(heading))
      ensures currentStep == old(currentStep) && charCount == old(charCount)
      ensures review == old(review) && promptText == old(promptText)
    {
      formData := formData.(structure := key, structureLabel := Some(heading));
    }

    /**
     * `nextStep(step)`. A rejected move changes neither the step, the form nor the indicators;
     * a request for step 4 with complete details re-renders the review panel and the prompt
     * even when the structure gate then rejects it.
     */
    method NextStep(step: int) returns (outcome: Outcome)
      requires Valid() && 1 <= step <= StepCount
      modifies this, progress
      ensures Valid()
      ensures outcome == Gate(old(formData), step)
      ensures formData == old(formData) && charCount == old(charCount)
      ensures outcome == Moved ==> currentStep == step && progress[..] == Advanced(old(progress[..]), step)
      ensures outcome != Moved ==> currentStep == old(currentStep) && progress[..] == old(progress[..])
      ensures step == 4 && DetailsComplete(formData) ==>
                review == RenderReview(formData) && promptText == GeneratePrompt(formData)
      ensures !(step == 4 && DetailsComplete(formData)) ==>
                review == old(review) && promptText == old(promptText)
      ensures outcome == Moved && step == 4 ==>
                formData.structureLabel.Some? &&
                StructureParagraph(formData) == "STRUCTURE: Use a " + formData.structureLabel.value + " narrative structure."
    {
      if step == 2 && Trim(formData.concept) == "" {
        return Rejected(ConceptAlert);
      }
      if step == 4 {
        if formData.genre == "" || formData.tone == "" || formData.length == "" || formData.pov == "" {
          return Rejected(DetailsAlert);
        }
        review := RenderReview(formData);
        promptText := GeneratePrompt(formData);
      }
      if step == 4 && formData.structure == "" {
        return Rejected(StructureAlert);
      }

      MarkProgress(step);
      currentStep := step;
      outcome := Moved;
    }

    /**
     * The indicator sweep of an accepted `nextStep(step)`: every indicator loses `active`, step
     * `step` gains it, and steps `1 .. step - 1` gain `completed`.
     */
    method MarkProgress(step: int)
      requires progress.Length == StepCount && 1 <= step <= StepCount
      modifies progress
      ensures progress[..] == Advanced(old(progress[..]), step)
    {
      var i := 0;
      while i < progress.Length
        invariant 0 <= i <= progress.Length
        invariant forall j :: 0 <= j < i ==> progress[j] == old(progress[j]).(active := false)
        invariant forall j :: i <= j < progress.Length ==> progress[j] == old(progress[j])
      {
        progress[i] := progress[i].(active := false);
        i := i + 1;
      }
      progress[step - 1] := progress[step - 1].(active := true);

      i := 1;
      while i < step
        invariant 1 <= i <= step
        invariant forall j :: 0 <= j < progress.Length ==>
                    progress[j] == StepStatus(j == step - 1, old(progress[j]).completed || j < i - 1)
      {
        progress[i - 1] := progress[i - 1].(completed := true);
        i := i + 1;
      }
      assert progress[..] == Advanced(old(progress[..]), step);
    }

    /** `prevStep(step)`: always moves; the indicators are rebuilt from the target step alone. */
    method PrevStep(step: int)
      requires Valid() && 1 <= step <= StepCount
      modifies this, progress
      ensures Valid()
      ensures currentStep == step && progress[..] == Rewound(step)
      ensures formData == old(formData) && charCount == old(charCount)
      ensures review == old(review) && promptText == old(promptText)
    {
      var i := 0;
      while i < progress.Length
        modifies progress
        invariant 0 <= i <= progress.Length
        invariant forall j :: 0 <= j < i ==> progress[j] == StepStatus(false, false)
      {
        progress[i] := StepStatus(false, false);
        i := i + 1;
      }
      i := 1;
      while i <= step
        modifies progress
        invariant 1 <= i <= step + 1
        invariant forall j :: 0 <= j < progress.Length ==>
                    progress[j] == StepStatus(j < i - 1 && j == step - 1, j < i - 1 && j < step - 1)
      {
        if i == step {
          progress[i - 1] := progress[i - 1].(active := true);
        } else {
          progress[i - 1] := progress[i - 1].(completed := true);
        }
        i := i + 1;
      }
      assert progress[..] == Rewound(step);
      currentStep := step;
    }

    /**
     * `resetForm`: back to step 1 with all eight fields empty and no structure heading. The review
     * panel and the prompt are not re-rendered.
     */
    method ResetForm()
      requires Valid()
      modifies this, progress
      ensures Valid()
      ensures currentStep == 1 && formData == EmptyForm && charCount == 0
      ensures progress[..] == Rewound(1)
      ensures review == old(review) && promptText == old(promptText)
    {
      currentStep := 1;
      formData := EmptyForm;
      var i := 0;
      while i < progress.Length
        modifies progress
        invariant 0 <= i <= progress.Length
        invariant forall j :: 0 <= j < i ==> progress[j] == StepStatus(false, false)
      {
        progress[i] := StepStatus(false, false);
        i := i + 1;
      }
      progress[0] := progress[0].(active := true);
      assert progress[..] == Rewound(1);
      charCount := 0;
    }

    /** The title `generateBook` shows once generation finishes. */
    method GenerateBook() returns (title: string)
      ensures title == BeforeSpace(formData.concept, 4) + "..."
    {
      title := ResultTitle(formData.concept);
    }
  }
}
