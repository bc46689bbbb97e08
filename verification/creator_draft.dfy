/** The in-progress greeting that the creator form holds (the
    `valentineSchema` record of the creator page) and the field bounds the
    schema enforces before the form may be submitted. */
module CreatorDraft {
  import opened Wrappers
  import opened JsText

  /** The visual theme, one of the three ids of the `themes` table. */
  datatype Theme = ClassicRose | MidnightRose | GoldenLove

  /** The presentation template, one of the three ids of the `templates` table. */
  datatype Template = GiftBox | LoveLetter | PoemCard

  /** The string value the form stores for a theme. */
  function ThemeId(t: Theme): string
  {
    match t
    case ClassicRose => "classic"
    case MidnightRose => "midnight"
    case GoldenLove => "golden"
  }

  /** The string value the form stores for a template. */
  function TemplateId(t: Template): string
  {
    match t
    case GiftBox => "classic"
    case LoveLetter => "love_letter"
    case PoemCard => "poem"
  }

  /** Whether the `templates` table marks a template as premium. */
  predicate IsPremium(t: Template)
  {
    t != GiftBox
  }

  /** The form values. A text field is `None` while it is still undefined
      (never typed into and without a default value). `imageFile` is the
      file list of the upload input, empty when no file was chosen. */
  datatype Draft = Draft(
    senderName: Option<string>,
    senderLocation: Option<string>,
    receiverName: Option<string>,
    theme: Theme,
    template: Template,
    title: Option<string>,
    message: Option<string>,
    musicLink: Option<string>,
    imageUrl: Option<string>,
    imageFile: seq<string>,
    protectionQuestion: Option<string>,
    protectionAnswer: Option<string>)

  /** The form's default values: classic theme and template, and empty
      title, music link and image URL; every other field undefined. */
  function InitialDraft(): (d: Draft)
    ensures d.theme == ClassicRose && d.template == GiftBox
    ensures d.title == Some("") && d.musicLink == Some("") && d.imageUrl == Some("")
    ensures d.senderName.None? && d.receiverName.None? && d.message.None?
    ensures d.senderLocation.None? && d.protectionQuestion.None? && d.protectionAnswer.None?
    ensures d.imageFile == []
  {
    Draft(None, None, None, ClassicRose, GiftBox, Some(""), None, Some(""), Some(""), [], None, None)
  }

  /** A required string of at least `min` UTF-16 code units. */
  predicate MinLength(v: Option<string>, min: nat)
  {
    v.Some? && Utf16Length(v.value) >= min
  }

  /** An optional string of at most `max` UTF-16 code units. */
  predicate OptionalMaxLength(v: Option<string>, max: nat)
  {
    v.None? || Utf16Length(v.value) <= max
  }

  /** An optional URL field that may also be the empty string; `isUrl`
      stands for the schema's URL syntax check. */
  predicate OptionalUrl(v: Option<string>, isUrl: string -> bool)
  {
    v.None? || v.value == "" || isUrl(v.value)
  }

  /** The schema the form is validated against before it is submitted. */
  predicate SchemaValid(d: Draft, isUrl: string -> bool)
    ensures SchemaValid(d, isUrl) ==>
      && d.senderName.Some? && d.receiverName.Some?
      && d.message.Some? && d.message.value != ""
  {
    && MinLength(d.senderName, 2)
    && OptionalMaxLength(d.senderLocation, 100)
    && MinLength(d.receiverName, 2)
    && MinLength(d.message, 1) && Utf16Length(d.message.value) <= 2000
    && OptionalUrl(d.musicLink, isUrl)
    && OptionalUrl(d.imageUrl, isUrl)
    && OptionalMaxLength(d.protectionQuestion, 255)
    && OptionalMaxLength(d.protectionAnswer, 255)
  }

  /** The initial form never validates: the names and the message are
      still undefined. */
  lemma InitialDraftInvalid(isUrl: string -> bool)
    ensures !SchemaValid(InitialDraft(), isUrl)
  {
  }

  /** The schema counts UTF-16 code units: a one-character name meets the
      two units the sender name needs exactly when the character lies
      outside the Basic Multilingual Plane. */
  lemma AstralNameMeetsMinimum(c: char)
    ensures MinLength(Some([c]), 2) <==> c as int > 0xFFFF
  {
    assert [c][1..] == "";
    assert Utf16Length([c]) == CodeUnits(c);
  }
}
