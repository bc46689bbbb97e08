/** The creator page's six-step wizard: which fields each step requires
    (`getFieldsForStep`), when the Next button may advance (`canProceed`),
    the Back button, the names check of the AI helper, and how submission
    and payment end the wizard. */
module CreatorPage {
  import opened Wrappers
  import opened JsText
  import opened CreatorDraft
  import opened CreatorSubmit
  import opened CreatorPricing

  /** The number of wizard steps (the length of the `steps` table). */
  const StepCount := 6

  /** The form fields a step can require. */
  datatype FieldName =
    | SenderNameField | SenderLocationField | ReceiverNameField
    | TemplateTypeField | ThemeField | MessageField | ProtectionAnswerField

  /** The form's value of a field; the two choices hold their string ids. */
  function FieldValue(d: Draft, f: FieldName): Option<string>
  {
    match f
    case SenderNameField => d.senderName
    case SenderLocationField => d.senderLocation
    case ReceiverNameField => d.receiverName
    case TemplateTypeField => Some(TemplateId(d.template))
    case ThemeField => Some(ThemeId(d.theme))
    case MessageField => d.message
    case ProtectionAnswerField => d.protectionAnswer
  }

  /** Whether a question was asked: it is defined and not blank once trimmed. */
  predicate QuestionAsked(d: Draft)
  {
    d.protectionQuestion.Some? && Trim(d.protectionQuestion.value) != ""
  }

  /** The fields that must be filled before leaving a step. */
  function FieldsForStep(step: int, d: Draft): (fields: seq<FieldName>)
    ensures |fields| <= 3
    ensures forall i, j | 0 <= i < j < |fields| :: fields[i] != fields[j]
    ensures !(1 <= step <= StepCount) ==> fields == []
  {
    match step
    case 1 => [SenderNameField, SenderLocationField, ReceiverNameField]
    case 2 => [TemplateTypeField]
    case 3 => [ThemeField, MessageField]
    case 4 => []
    case 5 => if QuestionAsked(d) then [ProtectionAnswerField] else []
    case 6 => [SenderNameField, ReceiverNameField, MessageField]
    case _ => []
  }

  /** A field is filled when its value is truthy and, being a string, is
      not empty once trimmed. */
  predicate Filled(d: Draft, f: FieldName)
  {
    var v := FieldValue(d, f);
    v.Some? && Truthy(v.value) && Trim(v.value) != ""
  }

  /** `canProceed`: every field the step requires is filled. */
  predicate CanProceed(step: int, d: Draft)
    ensures FieldsForStep(step, d) == [] ==> CanProceed(step, d)
    ensures CanProceed(step, d) ==> forall f | f in FieldsForStep(step, d) :: Filled(d, f)
  {
    var fields := FieldsForStep(step, d);
    forall i | 0 <= i < |fields| :: Filled(d, fields[i])
  }

  /** A text value that is defined and has a non-whitespace character. */
  predicate Present(v: Option<string>)
  {
    v.Some? && !Blank(v.value)
  }

  /** A property holds for every element of a three-element sequence
      exactly when it holds for each of the three. */
  lemma AllOfThree<T>(p: T -> bool, xs: seq<T>)
    requires |xs| == 3
    ensures (forall i | 0 <= i < |xs| :: p(xs[i])) <==> p(xs[0]) && p(xs[1]) && p(xs[2])
  {
  }

  /** `canProceed` for a step that lists one field. */
  lemma CanProceedOne(step: int, d: Draft, f: FieldName)
    requires FieldsForStep(step, d) == [f]
    ensures CanProceed(step, d) <==> Filled(d, f)
  {
    assert FieldsForStep(step, d)[0] == f;
  }

  /** `canProceed` for a step that lists two fields. */
  lemma CanProceedTwo(step: int, d: Draft, f: FieldName, g: FieldName)
    requires FieldsForStep(step, d) == [f, g]
    ensures CanProceed(step, d) <==> Filled(d, f) && Filled(d, g)
  {
    var fields := FieldsForStep(step, d);
    assert fields[0] == f && fields[1] == g;
  }

  /** `canProceed` for a step that lists three fields. */
  lemma CanProceedThree(step: int, d: Draft, f: FieldName, g: FieldName, h: FieldName)
    requires FieldsForStep(step, d) == [f, g, h]
    ensures CanProceed(step, d) <==> Filled(d, f) && Filled(d, g) && Filled(d, h)
  {
    var fields := FieldsForStep(step, d);
    AllOfThree(x => Filled(d, x), fields);
    assert fields[0] == f && fields[1] == g && fields[2] == h;
  }

  /** `Filled` in terms of the characters: a defined value with a
      non-whitespace character. */
  lemma FilledIffPresent(d: Draft, f: FieldName)
    ensures Filled(d, f) <==> Present(FieldValue(d, f))
  {
    var v := FieldValue(d, f);
    if v.Some? {
      TrimEmptyIffBlank(v.value);
    }
  }

  /** The first step needs both names and, although the form calls it
      optional, the sender's location. */
  lemma NamesStepRequirement(d: Draft)
    ensures CanProceed(1, d) <==>
      Present(d.senderName) && Present(d.senderLocation) && Present(d.receiverName)
  {
    CanProceedThree(1, d, SenderNameField, SenderLocationField, ReceiverNameField);
    FilledIffPresent(d, SenderNameField);
    FilledIffPresent(d, SenderLocationField);
    FilledIffPresent(d, ReceiverNameField);
  }

  /** A choice id starts with a letter, so it is always filled. */
  lemma ChoiceFilled(d: Draft, f: FieldName)
    requires f == TemplateTypeField || f == ThemeField
    ensures Filled(d, f)
  {
    var v := FieldValue(d, f).value;
    assert v[0] == 'c' || v[0] == 'l' || v[0] == 'p' || v[0] == 'm' || v[0] == 'g';
    FilledIffPresent(d, f);
  }

  /** The template step and the extras step never block. */
  lemma ChoiceStepsNeverBlock(d: Draft)
    ensures CanProceed(2, d) && CanProceed(4, d)
  {
    assert CanProceed(2, d) by {
      CanProceedOne(2, d, TemplateTypeField);
      ChoiceFilled(d, TemplateTypeField);
    }
    assert CanProceed(4, d) by {
      assert FieldsForStep(4, d) == [];
    }
  }

  /** The customize step needs a message; its theme is always chosen. */
  lemma CustomizeStepRequirement(d: Draft)
    ensures CanProceed(3, d) <==> Present(d.message)
  {
    CanProceedTwo(3, d, ThemeField, MessageField);
    ChoiceFilled(d, ThemeField);
    FilledIffPresent(d, MessageField);
  }

  /** The security step: the answer is required exactly when a question is
      asked, so a blank question always lets the wizard move on. */
  lemma SecurityStepRequirement(d: Draft)
    ensures CanProceed(5, d) <==> (Present(d.protectionQuestion) ==> Present(d.protectionAnswer))
    ensures !Present(d.protectionQuestion) ==> CanProceed(5, d)
  {
    if d.protectionQuestion.Some? {
      TrimEmptyIffBlank(d.protectionQuestion.value);
    }
    assert QuestionAsked(d) <==> Present(d.protectionQuestion);
    FilledIffPresent(d, ProtectionAnswerField);
    if QuestionAsked(d) {
      var fields := FieldsForStep(5, d);
      assert fields == [ProtectionAnswerField];
      assert CanProceed(5, d) <==> Filled(d, fields[0]);
    } else {
      assert FieldsForStep(5, d) == [];
    }
  }

  /** The Next button: on the first five steps it advances by one when the
      current step may be left, and otherwise does nothing. */
  function Next(step: int, d: Draft): (r: int)
    ensures r == step || r == step + 1
    ensures r == step + 1 <==> step < StepCount && CanProceed(step, d)
    ensures 1 <= step <= StepCount ==> 1 <= r <= StepCount
  {
    if step < StepCount && CanProceed(step, d) then step + 1 else step
  }

  /** The Back button: one step back, but never below the first step. */
  function Back(step: int): (r: int)
    ensures r >= 1
    ensures step > 1 ==> r == step - 1
    ensures step <= 1 ==> r == 1
    ensures 1 <= step <= StepCount ==> 1 <= r <= StepCount
  {
    if 1 > step - 1 then 1 else step - 1
  }

  /** The page state: the wizard step and draft, whether the greeting was
      created (with its share slug and management token), the paid flag and
      whether the AI helper dialog is open. */
  datatype Creator = Creator(
    step: int, draft: Draft, completed: bool,
    slug: string, token: string, paid: bool, aiOpen: bool)

  function Initial(): Creator
  {
    Creator(1, InitialDraft(), false, "", "", false, false)
  }

  /** What the user can do: edit the form, press Next or Back, open the AI
      helper, ask it to generate or close it, submit on the last step (with the
      creation reply), and press verify on the payment screen (with the
      payment reply). */
  datatype Event =
    | Edit(draft: Draft)
    | PressNext
    | PressBack
    | OpenAi
    | GenerateAi
    | CloseAi
    | Submit(created: CreateReply)
    | Verify(code: string, payment: PaymentReply)

  /** One event. While the wizard is shown its buttons act; once the
      greeting is created only the payment screen is shown. Submission runs
      only for a draft the schema accepts (`isUrl` is the schema's URL
      check). */
  function Step(s: Creator, e: Event, isUrl: string -> bool): (r: Creator)
    ensures s.completed ==> r == s.(paid := r.paid)
    ensures !s.completed ==> r.paid == s.paid
    ensures !r.completed ==> r.slug == s.slug && r.token == s.token
    ensures !e.Submit? ==> r.completed == s.completed
    ensures !e.Edit? ==> r.draft == s.draft
  {
    match e
    case Edit(d) => if s.completed then s else s.(draft := d)
    case PressNext =>
      if s.completed then s else s.(step := Next(s.step, s.draft))
    case PressBack =>
      if s.completed || s.step == 1 then s else s.(step := Back(s.step))
    case OpenAi => if s.completed then s else s.(aiOpen := true)
    case GenerateAi =>
      if s.completed || !s.aiOpen then s
      else if !Truthy(s.draft.senderName.GetOr("")) || !Truthy(s.draft.receiverName.GetOr("")) then
        s.(step := 1, aiOpen := false)
      else s
    case CloseAi => if s.completed then s else s.(aiOpen := false)
    case Submit(reply) =>
      if s.completed || s.step != StepCount || !SchemaValid(s.draft, isUrl) then s
      else
        (match HandleReply(reply)
         case Created(slug, token) => s.(completed := true, step := StepCount, slug := slug, token := token)
         case Alert(_) => s)
    case Verify(code, reply) =>
      if !s.completed || s.paid then s
      else s.(paid := PressVerify(s.paid, Attempt(code, reply)))
  }

  /** The AI helper's names check: with either name undefined or empty the
      wizard goes back to the first step and the dialog closes; a name of
      spaces passes this check although the first step would not let it
      through. */
  lemma AiNamesGuard(s: Creator, isUrl: string -> bool)
    requires !s.completed && s.aiOpen
    ensures var r := Step(s, GenerateAi, isUrl);
      if s.draft.senderName.GetOr("") == "" || s.draft.receiverName.GetOr("") == ""
      then r == s.(step := 1, aiOpen := false)
      else r == s
    ensures var a := s.draft.senderName; var b := s.draft.receiverName;
      && a.Some? && a.value != "" && b.Some? && b.value != ""
      && (Blank(a.value) || Blank(b.value))
      ==> Step(s, GenerateAi, isUrl) == s && !CanProceed(1, s.draft)
  {
    NamesStepRequirement(s.draft);
  }

  /** Closing the AI helper, by its close button or by picking one of its
      messages or poems (a pick is an edit of the message, and of the title
      for a poem, followed by the close): the dialog shuts and the wizard
      stays where it was; a generate request after the close changes
      nothing. */
  lemma AiDialogCloses(s: Creator, d: Draft, isUrl: string -> bool)
    requires !s.completed
    ensures var r := Step(s, CloseAi, isUrl);
      && !r.aiOpen && r.step == s.step && r.draft == s.draft && !r.completed
      && Step(r, GenerateAi, isUrl) == r
    ensures var r := Run(s, [Edit(d), CloseAi], isUrl);
      !r.aiOpen && r.step == s.step && r.draft == d && !r.completed
  {
    assert Run(s, [Edit(d), CloseAi], isUrl) == Run(s.(draft := d), [CloseAi], isUrl);
  }

  /** Submitting from the last step: a draft the schema accepts and a reply
      that reports success create the greeting and keep the wizard on the
      last step; any other reply or an invalid draft changes nothing. */
  lemma SubmitOutcomeOnLastStep(s: Creator, reply: CreateReply, isUrl: string -> bool)
    requires Valid(s) && !s.completed && s.step == StepCount
    ensures var r := Step(s, Submit(reply), isUrl);
      if SchemaValid(s.draft, isUrl) && reply.Reply? && reply.ok && reply.success
      then r.completed && r.step == StepCount && r.slug == reply.slug && r.token == reply.token
           && r.draft == s.draft && !r.paid
      else r == s
  {
  }

  /** The page's invariant: the step is one of the six, a created greeting
      sits on the last step, and only a created greeting can be paid. */
  predicate Valid(s: Creator)
  {
    && 1 <= s.step <= StepCount
    && (s.completed ==> s.step == StepCount)
    && (s.paid ==> s.completed)
  }

  /** Every event keeps the invariant; the step moves up only through Next,
      by exactly one and from a step that may be left; creation and payment
      are never undone. */
  lemma StepKeepsValid(s: Creator, e: Event, isUrl: string -> bool)
    requires Valid(s)
    ensures Valid(Step(s, e, isUrl))
    ensures Step(s, e, isUrl).step > s.step ==>
      e.PressNext? && Step(s, e, isUrl).step == s.step + 1 && CanProceed(s.step, s.draft)
    ensures !e.Edit? ==> Step(s, e, isUrl).draft == s.draft
    ensures s.completed ==> Step(s, e, isUrl).completed
    ensures s.paid ==> Step(s, e, isUrl).paid
    ensures !s.completed && Step(s, e, isUrl).completed ==>
      e.Submit? && SchemaValid(s.draft, isUrl) && e.created.Reply? && e.created.ok && e.created.success
  {
  }

  /** The state after a series of events. */
  function Run(s: Creator, events: seq<Event>, isUrl: string -> bool): Creator
    decreases |events|
  {
    if events == [] then s else Run(Step(s, events[0], isUrl), events[1..], isUrl)
  }

  /** The invariant holds in every state reachable from the initial page. */
  lemma {:induction false} RunKeepsValid(s: Creator, events: seq<Event>, isUrl: string -> bool)
    requires Valid(s)
    ensures Valid(Run(s, events, isUrl))
    ensures s.paid ==> Run(s, events, isUrl).paid
    decreases |events|
  {
    if events != [] {
      StepKeepsValid(s, events[0], isUrl);
      RunKeepsValid(Step(s, events[0], isUrl), events[1..], isUrl);
    }
  }

  lemma ReachableStatesValid(events: seq<Event>, isUrl: string -> bool)
    ensures Valid(Run(Initial(), events, isUrl))
  {
    RunKeepsValid(Initial(), events, isUrl);
  }

  /** No step is skipped: to stand on a step after the first the wizard must
      at some point have stood on the step before it with that step's fields
      filled, and pressed Next. */
  lemma {:induction false} NoStepSkipped(s: Creator, events: seq<Event>, isUrl: string -> bool, k: int)
    requires Valid(s)
    requires s.step < k <= Run(s, events, isUrl).step
    ensures exists i | 0 <= i < |events| ::
      events[i].PressNext? && Run(s, events[..i], isUrl).step == k - 1
      && CanProceed(k - 1, Run(s, events[..i], isUrl).draft)
    decreases |events|
  {
    var e := events[0];
    var s' := Step(s, e, isUrl);
    StepKeepsValid(s, e, isUrl);
    assert Run(s, events[..0], isUrl) == s;
    if s'.step >= k {
      assert s'.step == s.step + 1 == k;
      assert events[0].PressNext? && Run(s, events[..0], isUrl).step == k - 1;
    } else {
      NoStepSkipped(s', events[1..], isUrl, k);
      var i :| 0 <= i < |events[1..]| && events[1..][i].PressNext?
        && Run(s', events[1..][..i], isUrl).step == k - 1
        && CanProceed(k - 1, Run(s', events[1..][..i], isUrl).draft);
      assert events[..i + 1] == [e] + events[1..][..i];
      assert Run(s, events[..i + 1], isUrl) == Run(s', events[1..][..i], isUrl);
    }
  }

  /** On the finished page, a verify event updates the paid flag exactly as
      one press of the verify button does. */
  lemma VerifyStepIsPress(s: Creator, code: string, reply: PaymentReply, isUrl: string -> bool)
    requires s.completed
    ensures Step(s, Verify(code, reply), isUrl) == s.(paid := PressVerify(s.paid, Attempt(code, reply)))
  {
    if s.paid {
      assert PressVerify(s.paid, Attempt(code, reply));
    }
  }

  /** The verify events of a series of presses. */
  function VerifyEvents(attempts: seq<Attempt>): (events: seq<Event>)
    ensures |events| == |attempts|
    ensures forall i | 0 <= i < |attempts| :: events[i] == Verify(attempts[i].code, attempts[i].reply)
  {
    seq(|attempts|, i requires 0 <= i < |attempts| => Verify(attempts[i].code, attempts[i].reply))
  }

  /** On the finished page, a series of verify presses leaves the paid flag
      where `PaidAfter` says, so the page ends up paid exactly when one of
      the presses was accepted or it already was paid. */
  lemma {:induction false} VerifyRunIsPaidAfter(s: Creator, attempts: seq<Attempt>, isUrl: string -> bool)
    requires s.completed
    ensures Run(s, VerifyEvents(attempts), isUrl) == s.(paid := PaidAfter(s.paid, attempts))
    decreases |attempts|
  {
    if attempts != [] {
      var events := VerifyEvents(attempts);
      VerifyStepIsPress(s, attempts[0].code, attempts[0].reply, isUrl);
      var next := Step(s, events[0], isUrl);
      assert events[1..] == VerifyEvents(attempts[1..]);
      VerifyRunIsPaidAfter(next, attempts[1..], isUrl);
    }
  }
}
